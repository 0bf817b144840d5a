/** What each commit and each single statement that writes does to the tables, row by row. */
module SessionEffects {
  import opened Wrappers
  import opened SessionModel
  import opened SessionInvariant
  import opened SessionSafety
  import opened SessionReuse

  // ------------------------------------------------------------ one user's sessions

  /** Every unrevoked token of `user` was revoked with `reason` at `now`, and no other row changed. */
  ghost predicate RevokesAll(before: Tokens, after: Tokens, user: UserId, now: Time, reason: Reason) {
    && after.Keys == before.Keys
    && forall h :: h in before ==>
         var row := before[h];
         if row.user == user && row.revokedAt == None
         then after[h] == Row(row.user, row.family, row.expires, Some(now), Some(reason))
         else after[h] == row
  }

  /** The unrevoked tokens of `user`. */
  ghost function SessionsOf(tokens: Tokens, user: UserId): set<TokenHash> {
    set h | h in tokens && tokens[h].user == user && tokens[h].revokedAt == None
  }

  lemma RevokedAll(tokens: Tokens, user: UserId, now: Time, reason: Reason)
    ensures RevokesAll(tokens, RevokeRows(tokens, ActiveOf(tokens, user), now, reason), user, now, reason)
    ensures ActiveOf(tokens, user) == SessionsOf(tokens, user)
  {
  }

  // ------------------------------------------------------------ logins

  /** A login of `user`, who still has `password`, stored token `hash` as the first of its family. */
  ghost predicate StoresSession(s: State, t: State, user: UserId, password: PasswordHash, hash: TokenHash,
                                expires: Time) {
    && user in s.users && s.users[user].password == password && t.users == s.users
    && hash !in s.tokens && t.tokens.Keys == s.tokens.Keys + {hash}
    && (forall h :: h in s.tokens ==> t.tokens[h] == s.tokens[h] && s.tokens[h].family != t.tokens[hash].family)
    && t.tokens[hash] == Row(user, t.tokens[hash].family, expires, None, None)
  }

  lemma CreateStores(s: State, i: nat)
    requires CanCreateCommit(s, i) && CallOk(s, s.calls[i]) && PaceOk(s)
    requires RowsOk(s.users, s.tokens, s.births) && TailOk(s.tokens, s.births, s.chain)
    ensures var x := s.calls[i].session; StoresSession(s, DoCreateCommit(s, i), x.user, x.password, x.hash, x.expires)
  {
    forall h | h in s.tokens ensures s.tokens[h].family in s.chain { assert OnChain(s.births, s.chain, h); }
  }

  /** The commit of a login finds the password it verified still current, and adds one row. */
  lemma CommittedSession(states: seq<State>, steps: seq<Action>, k: nat, i: nat)
    requires Behavior(states, steps) && k < |steps| && steps[k] == OnLogin(i, CreateCommit)
    ensures At(states[k], i) && states[k].calls[i].CreateInserted?
    ensures At(states[k + 1], i) && states[k + 1].calls[i] == Idle
    ensures var x := states[k].calls[i].session;
            StoresSession(states[k], states[k + 1], x.user, x.password, x.hash, x.expires)
  {
    ReachableInv(states, steps, k);
    assert StepAt(states, steps, k);
    assert CallOk(states[k], states[k].calls[i]);
    CreateStores(states[k], i);
  }

  // ------------------------------------------------------------ exchanges

  /** Token `p` was revoked as rotated and token `r` stored in its place, and no other row changed. */
  ghost predicate Exchanges(s: State, t: State, p: TokenHash, r: TokenHash, expires: Time) {
    && p in s.tokens && r !in s.tokens && s.tokens[p].revokedAt == None
    && t.users == s.users && t.tokens.Keys == s.tokens.Keys + {r}
    && (forall h :: h in s.tokens && h != p ==> t.tokens[h] == s.tokens[h])
    && var row := s.tokens[p];
    && t.tokens[p] == Row(row.user, row.family, row.expires, Some(s.now), Some(Rotated))
    && t.tokens[r] == Row(row.user, row.family, expires, None, None)
    && t.log == s.log + [TokenRotated(row.user, p, r)]
  }

  lemma RotateExchanges(s: State, i: nat)
    requires CanRotateCommit(s, i) && CallOk(s, s.calls[i]) && RowsOk(s.users, s.tokens, s.births)
    ensures var x := s.calls[i].x; Exchanges(s, DoRotateCommit(s, i), x.presented, x.replacement, x.expires)
  {
  }

  /** The commit of an exchange replaces the presented token by the drawn one, and nothing else. */
  lemma CommittedExchange(states: seq<State>, steps: seq<Action>, k: nat, i: nat)
    requires Behavior(states, steps) && k < |steps| && steps[k] == OnRefresh(i, RotateCommit)
    ensures At(states[k], i) && states[k].calls[i].RotateInserted?
    ensures At(states[k + 1], i) && states[k + 1].calls[i] == Counting(Rotations, 1)
    ensures var x := states[k].calls[i].x; Exchanges(states[k], states[k + 1], x.presented, x.replacement, x.expires)
  {
    ReachableInv(states, steps, k);
    assert StepAt(states, steps, k);
    assert CallOk(states[k], states[k].calls[i]);
    RotateExchanges(states[k], i);
  }

  // ------------------------------------------------------------ detected reuse

  /** The owner of `p` lost every session, `n` of them, for the reuse of `p`. */
  ghost predicate EndsForReuse(s: State, t: State, p: TokenHash, n: nat) {
    && p in s.births && var u := s.births[p].user;
    && RevokesAll(s.tokens, t.tokens, u, s.now, Reused) && n == |SessionsOf(s.tokens, u)|
    && t.users == s.users && t.log == s.log + [ReuseEnded(u, p, SessionsOf(s.tokens, u))]
  }

  lemma ReuseEnds(s: State, i: nat)
    requires CanReuseCommit(s, i) && CallOk(s, s.calls[i])
    ensures var c, t := s.calls[i], DoReuseCommit(s, i);
            EndsForReuse(s, t, c.presented, |c.targets|) && t.calls[i] == Counting(ReuseSessions, |c.targets|)
  {
    RevokedAll(s.tokens, s.calls[i].owner, s.now, Reused);
  }

  lemma CommittedReuse(states: seq<State>, steps: seq<Action>, k: nat, i: nat)
    requires Behavior(states, steps) && k < |steps| && steps[k] == OnRefresh(i, ReuseCommit)
    ensures At(states[k], i) && states[k].calls[i].RotateEnding?
    ensures var c, t := states[k].calls[i], states[k + 1];
            && EndsForReuse(states[k], t, c.presented, |c.targets|)
            && At(t, i) && t.calls[i] == Counting(ReuseSessions, |c.targets|)
  {
    ReachableInv(states, steps, k);
    assert StepAt(states, steps, k);
    assert CallOk(states[k], states[k].calls[i]);
    ReuseEnds(states[k], i);
  }

  // ------------------------------------------------------------ logout

  /** `hash` is not active any more, by a logout if it was, and nothing else changed. */
  ghost predicate EndsOnly(s: State, t: State, hash: TokenHash) {
    && t.users == s.users && t.tokens.Keys == s.tokens.Keys
    && (forall h :: h in s.tokens && h != hash ==> t.tokens[h] == s.tokens[h])
    && (hash in s.tokens ==>
          var row := s.tokens[hash];
          if row.revokedAt == None
          then t.tokens[hash] == Row(row.user, row.family, row.expires, Some(s.now), Some(LoggedOut))
          else t.tokens[hash] == row)
  }

  lemma LoggedOutOne(s: State, i: nat, hash: TokenHash)
    requires CanLogout(s, i, hash)
    ensures EndsOnly(s, DoLogout(s, i, hash), hash)
  {
  }

  /** A logout ends at most the presented token and goes on to count it if it did. */
  lemma LoggedOutByRun(states: seq<State>, steps: seq<Action>, k: nat, i: nat, hash: TokenHash)
    requires Behavior(states, steps) && k < |steps| && steps[k] == OnOwner(i, Logout(hash))
    ensures EndsOnly(states[k], states[k + 1], hash) && At(states[k + 1], i)
    ensures states[k + 1].calls[i] == Idle || states[k + 1].calls[i] == Counting(LogoutSessions, 1)
  {
    assert StepAt(states, steps, k);
    LoggedOutOne(states[k], i, hash);
    if hash in states[k].tokens && Active(states[k].tokens[hash]) {} else {}
  }

  // ------------------------------------------------------------ users

  /** No user but `user` changed. */
  ghost predicate OnlyUser(s: State, t: State, user: UserId) {
    t.users.Keys == s.users.Keys && forall u :: u in s.users && u != user ==> t.users[u] == s.users[u]
  }

  /** The password and whatever else the edit carries were written to the row that `user` had, the next
      version with them, every session of the user ended, and every other user and token was left alone. */
  ghost predicate ChangedTo(s: State, t: State, user: UserId, fields: UserUpdate) {
    && user in s.users && OnlyUser(s, t, user)
    && fields.password.Some? && t.users[user].password == fields.password.value
    && t.users[user].version == s.users[user].version + 1
    && (fields.profile.Some? ==> t.users[user].profile == fields.profile.value)
    && (fields.profile.None? ==> t.users[user].profile == s.users[user].profile)
    && RevokesAll(s.tokens, t.tokens, user, s.now, PasswordChanged)
  }

  lemma ChangeCommitted(s: State, i: nat)
    requires CanChangeCommit(s, i) && CallOk(s, s.calls[i])
    ensures var t, c := DoChangeCommit(s, i), s.calls[i];
            && ChangedTo(s, t, c.owner, c.fields)
            && t.calls[i] == Counting(PasswordSessions, |SessionsOf(s.tokens, c.owner)|)
  {
    RevokedAll(s.tokens, s.calls[i].owner, s.now, PasswordChanged);
  }

  /** A password change writes its user's row, the next version with it, ends and counts exactly that
      user's sessions, and leaves every other user and token alone. */
  lemma ChangedByCommit(states: seq<State>, steps: seq<Action>, k: nat, i: nat)
    requires Behavior(states, steps) && k < |steps| && steps[k] == OnOwner(i, ChangeCommit)
    ensures At(states[k], i) && states[k].calls[i].ChangeRevoked?
    ensures var s, t, c := states[k], states[k + 1], states[k].calls[i];
            && ChangedTo(s, t, c.owner, c.fields)
            && At(t, i) && t.calls[i] == Counting(PasswordSessions, |SessionsOf(s.tokens, c.owner)|)
  {
    ReachableInv(states, steps, k);
    assert StepAt(states, steps, k);
    assert CallOk(states[k], states[k].calls[i]);
    ChangeCommitted(states[k], i);
  }

  lemma BulkCommitted(s: State, i: nat)
    requires CanBulkCommit(s, i) && CallOk(s, s.calls[i])
    ensures var t, c := DoBulkCommit(s, i), s.calls[i];
            && t.users == s.users && RevokesAll(s.tokens, t.tokens, c.owner, s.now, LoggedOut)
            && |c.targets| == |SessionsOf(s.tokens, c.owner)|
  {
    RevokedAll(s.tokens, s.calls[i].owner, s.now, LoggedOut);
  }

  /** RevokeAllForUser logs every session of its user out, and nothing else. */
  lemma BulkRevokedByCommit(states: seq<State>, steps: seq<Action>, k: nat, i: nat)
    requires Behavior(states, steps) && k < |steps| && steps[k] == OnOwner(i, BulkCommit)
    ensures At(states[k], i) && states[k].calls[i].BulkRevoked?
    ensures var s, t, c := states[k], states[k + 1], states[k].calls[i];
            && At(t, i) && t.calls[i] == Idle
            && t.users == s.users && RevokesAll(s.tokens, t.tokens, c.owner, s.now, LoggedOut)
            && |c.targets| == |SessionsOf(s.tokens, c.owner)|
  {
    ReachableInv(states, steps, k);
    assert StepAt(states, steps, k);
    assert CallOk(states[k], states[k].calls[i]);
    BulkCommitted(states[k], i);
  }

  /** A new user has version 1 and an id no user and no token ever had. */
  lemma RegisterWrites(states: seq<State>, steps: seq<Action>, k: nat, password: PasswordHash, profile: nat)
    requires Behavior(states, steps) && k < |steps| && steps[k] == OnUsers(Register(password, profile))
    ensures var s, t := states[k], states[k + 1];
            exists u: UserId ::
              && u !in s.users && t.users == s.users[u := User(password, 1, profile)] && t.tokens == s.tokens
              && (forall h :: h in s.births ==> s.births[h].user != u)
              && (forall v :: (u, v) !in s.passwordAt)
  {
    ReachableInv(states, steps, k);
    assert StepAt(states, steps, k);
    NewUser(states[k]);
  }

  lemma NewUser(s: State)
    requires PaceOk(s)
    ensures s.nextUser !in s.users && (forall h :: h in s.births ==> s.births[h].user != s.nextUser)
    ensures forall v :: (s.nextUser, v) !in s.passwordAt
  {
  }

  /** An edit without a password keeps the password, its version and every session. */
  lemma ProfileWrites(states: seq<State>, steps: seq<Action>, k: nat, user: UserId, fields: UserUpdate)
    requires Behavior(states, steps) && k < |steps| && steps[k] == OnUsers(ProfileUpdate(user, fields))
    ensures var s, t := states[k], states[k + 1];
            && t.tokens == s.tokens && OnlyUser(s, t, user)
            && (user in s.users ==>
                  && t.users[user].password == s.users[user].password
                  && t.users[user].version == s.users[user].version
                  && (fields.profile.Some? ==> t.users[user].profile == fields.profile.value)
                  && (fields.profile.None? ==> t.users[user].profile == s.users[user].profile))
  {
    assert StepAt(states, steps, k);
  }

  /** Deleting a user deletes that user's tokens and nothing else. */
  lemma DeleteWrites(states: seq<State>, steps: seq<Action>, k: nat, user: UserId)
    requires Behavior(states, steps) && k < |steps| && steps[k] == OnUsers(DeleteUser(user))
    ensures var s, t := states[k], states[k + 1];
            && (forall u :: u in t.users <==> u in s.users && u != user)
            && (forall u :: u in t.users ==> t.users[u] == s.users[u])
            && (forall h :: h in t.tokens <==> h in s.tokens && s.tokens[h].user != user)
            && (forall h :: h in t.tokens ==> t.tokens[h] == s.tokens[h])
  {
    assert StepAt(states, steps, k);
  }

  // ------------------------------------------------------------ cleanup

  /** Every row that was live, or expired at most one retention period ago, is still there. */
  ghost predicate KeepsRecent(s: State, t: State) {
    forall h :: h in s.tokens && s.tokens[h].expires >= s.now - s.cfg.retention ==>
      h in t.tokens && t.tokens[h] == s.tokens[h]
  }

  /** Nothing that expired before `cutoff` is left, and nothing is new or changed. */
  ghost predicate RemovesOld(s: State, t: State, cutoff: Time) {
    forall h :: h in t.tokens ==> h in s.tokens && t.tokens[h] == s.tokens[h] && t.tokens[h].expires >= cutoff
  }

  lemma SweptAll(s: State, i: nat)
    requires CanSweepRun(s, i) && CallOk(s, s.calls[i]) && s.cfg.Valid()
    ensures KeepsRecent(s, DoSweepRun(s, i)) && RemovesOld(s, DoSweepRun(s, i), s.calls[i].cutoff)
    ensures DoSweepRun(s, i).users == s.users
  {
    forall h | h in s.tokens && s.tokens[h].expires >= s.now - s.cfg.retention
      ensures h in DoSweepRun(s, i).tokens && DoSweepRun(s, i).tokens[h] == s.tokens[h]
    {
      SweptRow(s, i, h);
    }
  }

  /** A sweep in any run keeps what is recent and removes what is old. */
  lemma SweptByRun(states: seq<State>, steps: seq<Action>, k: nat, i: nat)
    requires Behavior(states, steps) && k < |steps| && steps[k] == OnOther(i, SweepRun)
    ensures At(states[k], i) && states[k].calls[i].SweepDue? && states[k + 1].users == states[k].users
    ensures At(states[k + 1], i) && states[k + 1].calls[i] == Idle
    ensures KeepsRecent(states[k], states[k + 1]) && RemovesOld(states[k], states[k + 1], states[k].calls[i].cutoff)
  {
    ReachableInv(states, steps, k);
    assert StepAt(states, steps, k);
    assert CallOk(states[k], states[k].calls[i]);
    SweptAll(states[k], i);
  }

  // ------------------------------------------------------------ refusals

  /** The last event refused `presented` with the answer of the decision table. */
  ghost predicate RefusedLast(s: State, presented: TokenHash, verdict: Verdict) {
    && s.log != [] && s.log[|s.log| - 1] == RotateRefused(presented, verdict)
    && verdict != Reuse && TableSays(s.tokens, presented, s.now, verdict)
  }

  ghost predicate RefusedNow(s: State, presented: TokenHash) {
    s.log != [] && s.log[|s.log| - 1].RotateRefused? && RefusedLast(s, presented, s.log[|s.log| - 1].verdict)
  }

  /** What the inspecting statement leads to is what the decision table says. */
  lemma InspectedByTable(states: seq<State>, steps: seq<Action>, i: nat, at: Time, familyAt: Time)
    requires Behavior(states, steps) && |steps| > 0
    requires CanRotateInspect(states[|steps| - 1], i, at, familyAt)
    requires states[|steps|] == DoRotateInspect(states[|steps| - 1], i, at, familyAt)
    ensures var t, c := states[|steps|], states[|steps| - 1].calls[i];
            || (t.calls[i] == RotateReplay(c.presented, c.owner) && TableSays(t.tokens, c.presented, t.now, Reuse))
            || (t.calls[i] == Idle && RefusedNow(t, c.presented))
  {
    var s := states[|steps| - 1];
    InspectMatchesTable(states, steps, |steps| - 1, i, at, familyAt,
                        Classify(s.tokens, s.calls[i].presented, at, familyAt));
    if Classify(s.tokens, s.calls[i].presented, at, familyAt) == Reuse {} else {}
  }

  /** The lookup finds the owner of the presented token, or there is no such token. */
  lemma FoundOrUnknown(s: State, i: nat)
    requires CanRotateLookup(s, i)
    ensures var x, t := s.calls[i].x, DoRotateLookup(s, i);
            if x.presented in s.tokens then t.calls[i] == RotateFound(x, s.tokens[x.presented].user)
            else t.calls[i] == Idle && RefusedLast(t, x.presented, Unknown)
  {
    if s.calls[i].x.presented in s.tokens {} else {}
  }

  /** The owner's row is locked, or it is gone, and then so is the presented token. */
  lemma LockedOrGone(states: seq<State>, steps: seq<Action>, s: State, i: nat)
    requires Behavior(states, steps) && |steps| > 0 && states[|steps| - 1] == s
    requires CanRotateLock(s, i)
    ensures var c, t := s.calls[i], DoRotateLock(s, i);
            if c.owner in s.users then t.calls[i] == RotateLocked(c.x, c.owner)
            else t.calls[i] == Idle && RefusedLast(t, c.x.presented, Unknown)
  {
    if s.calls[i].owner !in s.users { OwnerGone(states, steps, i); }
  }

  lemma OwnerGone(states: seq<State>, steps: seq<Action>, i: nat)
    requires Behavior(states, steps) && |steps| > 0
    requires var s := states[|steps| - 1]; At(s, i) && s.calls[i].RotateFound? && s.calls[i].owner !in s.users
    ensures states[|steps| - 1].calls[i].x.presented !in states[|steps| - 1].tokens
  {
    ReachableInv(states, steps, |steps| - 1);
    assert CallOk(states[|steps| - 1], states[|steps| - 1].calls[i]);
  }

  /** A consume matches exactly a live row. */
  lemma ConsumedOrMissed(s: State, i: nat)
    requires CanRotateConsume(s, i)
    ensures var c, t := s.calls[i], DoRotateConsume(s, i);
            if LiveNow(s, c.x.presented) then t.calls[i] == RotateConsumed(c.x, c.owner)
            else t.calls[i] == RotateMissed(c.x.presented, c.owner, s.now)
  {
    if LiveNow(s, s.calls[i].x.presented) {} else {}
  }

  ghost predicate LiveNow(s: State, h: TokenHash) {
    h in s.tokens && s.tokens[h].revokedAt == None && s.tokens[h].expires > s.now
  }

  /** The replacement collides with a token that is already stored. */
  ghost predicate Collides(s: State, i: nat) {
    At(s, i) && s.calls[i].RotateConsumed? && s.calls[i].x.replacement in s.tokens
  }

  lemma InsertedOrCollided(s: State, i: nat)
    requires CanRotateInsert(s, i) && CallOk(s, s.calls[i])
    ensures var t := DoRotateInsert(s, i);
            if Collides(s, i) then t.calls[i] == Idle
            else t.calls[i].RotateInserted? && t.calls[i].x == s.calls[i].x
  {
    if s.calls[i].x.replacement in s.tokens {} else {}
  }
}
