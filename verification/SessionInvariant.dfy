/** What every reachable state of the session protocol satisfies, and the proof that every step of
    every call keeps it. */
module SessionInvariant {
  import opened Wrappers
  import opened SessionModel

  type Users = map<UserId, User>
  type Births = map<TokenHash, Birth>
  type Chains = map<FamilyId, seq<TokenHash>>
  type Passwords = map<(UserId, nat), PasswordHash>

  // ------------------------------------------------------------ what the tables keep

  /** Each stored row has an owner, a well-formed revocation, and agrees with its history. */
  ghost predicate RowsOk(users: Users, tokens: Tokens, births: Births) {
    forall h :: h in tokens ==>
      var row := tokens[h];
      && row.user in users
      && (row.revokedAt.None? <==> row.reason.None?)
      && h in births
      && births[h].user == row.user
      && births[h].family == row.family
      && births[h].expires == row.expires
  }

  ghost predicate OnChain(births: Births, chain: Chains, h: TokenHash)
    requires h in births
  {
    var b := births[h];
    b.family in chain && b.depth < |chain[b.family]| && chain[b.family][b.depth] == h
  }

  ghost predicate IsLink(births: Births, chain: Chains, f: FamilyId, d: nat)
    requires f in chain && d < |chain[f]|
  {
    var h := chain[f][d];
    h in births && births[h].family == f && births[h].depth == d
  }

  /** Every token ever stored sits at its depth on its family's chain, and nothing else does. */
  ghost predicate ChainsOk(births: Births, chain: Chains) {
    && (forall h {:trigger OnChain(births, chain, h)} :: h in births ==> OnChain(births, chain, h))
    && (forall f, d: nat {:trigger IsLink(births, chain, f, d)} ::
          f in chain && d < |chain[f]| ==> IsLink(births, chain, f, d))
  }

  ghost predicate Descends(births: Births, chain: Chains, log: seq<Event>, h: TokenHash)
    requires h in births && OnChain(births, chain, h)
  {
    var b := births[h];
    && b.login < |log| && b.born < |log|
    && log[b.login] == LoginStored(b.user, chain[b.family][0], b.family, b.password)
    && (b.depth == 0 ==> b.parent.None? && b.born == b.login)
    && (b.depth > 0 ==>
          var p := chain[b.family][b.depth - 1];
          && p in births
          && b.parent == Some(p)
          && births[p].user == b.user
          && births[p].login == b.login
          && births[p].version == b.version
          && births[p].born < b.born
          && log[b.born] == TokenRotated(b.user, p, h))
  }

  /** Every token was stored by a login, or by exchanging the token before it on its chain. */
  ghost predicate LineageOk(births: Births, chain: Chains, log: seq<Event>) {
    forall h {:trigger OnChain(births, chain, h)} ::
      h in births ==> OnChain(births, chain, h) && Descends(births, chain, log, h)
  }

  /** Expiry never decreases along a chain. */
  ghost predicate ExpiryOk(births: Births) {
    forall h, g ::
      (&& h in births && g in births
       && births[h].family == births[g].family
       && births[h].depth <= births[g].depth) ==> births[h].expires <= births[g].expires
  }

  ghost predicate ExpiresBy(births: Births, horizon: Time) {
    forall h :: h in births ==> births[h].expires <= horizon
  }

  ghost predicate Newest(births: Births, chain: Chains, h: TokenHash)
    requires h in births && OnChain(births, chain, h)
  {
    births[h].depth == |chain[births[h].family]| - 1
  }

  /** A stored token that is not the newest of its chain was rotated. */
  ghost predicate TailOk(tokens: Tokens, births: Births, chain: Chains) {
    forall h :: h in tokens ==>
      && h in births
      && OnChain(births, chain, h)
      && (Newest(births, chain, h) || tokens[h].reason == Some(Rotated))
  }

  /** The rows still stored form the newest part of their chain. */
  ghost predicate SuffixOk(tokens: Tokens, births: Births) {
    forall h, g ::
      (&& h in tokens && h in births && g in births
       && births[h].family == births[g].family
       && births[h].depth <= births[g].depth) ==> g in tokens
  }

  /** One version number of one user was never paired with two password hashes. */
  ghost predicate VersionsOk(users: Users, passwordAt: Passwords, nextUser: UserId) {
    && (forall u :: u in users ==>
          && u < nextUser
          && (u, users[u].version) in passwordAt
          && passwordAt[(u, users[u].version)] == users[u].password)
    && (forall u, v :: (u, v) in passwordAt ==> u < nextUser && (u in users ==> v <= users[u].version))
  }

  /** Each chain's root login verified the password its version number stands for. */
  ghost predicate RootsOk(births: Births, passwordAt: Passwords) {
    forall h :: h in births ==>
      var b := births[h];
      (b.user, b.version) in passwordAt && passwordAt[(b.user, b.version)] == b.password
  }

  /** An unrevoked token descends from a login that verified the current credentials. */
  ghost predicate CurrentOk(users: Users, tokens: Tokens, births: Births) {
    forall h :: h in tokens && Active(tokens[h]) ==>
      h in births && tokens[h].user in users && births[h].version == users[tokens[h].user].version
  }

  /** Rotations in the log are the ones the chains record. */
  ghost predicate LogOk(births: Births, log: seq<Event>) {
    forall k :: 0 <= k < |log| && log[k].TokenRotated? ==>
      var e := log[k];
      && e.replacement in births
      && births[e.replacement].parent == Some(e.presented)
      && births[e.replacement].born == k
      && births[e.replacement].user == e.user
  }

  /** After an event that ended a user's sessions, only tokens of later logins are unrevoked. */
  ghost predicate EndedOk(tokens: Tokens, births: Births, log: seq<Event>) {
    forall k, h ::
      (&& 0 <= k < |log| && h in tokens && Active(tokens[h]) && h in births
       && EndsSessions(log[k], tokens[h].user)) ==> k < births[h].login
  }

  /** After such an event, only chains of later logins grow. */
  ghost predicate GrowthOk(births: Births, log: seq<Event>) {
    forall k, h ::
      (&& 0 <= k < |log| && h in births && births[h].depth > 0 && k < births[h].born
       && EndsSessions(log[k], births[h].user)) ==> k < births[h].login
  }

  /** Rows that expired at `since` or later are kept. */
  ghost predicate KeptOk(users: Users, tokens: Tokens, births: Births, since: Time) {
    forall h :: h in births && births[h].user in users && births[h].expires >= since ==> h in tokens
  }

  ghost predicate HistoryOk(births: Births, chain: Chains, log: seq<Event>) {
    && ChainsOk(births, chain)
    && LineageOk(births, chain, log)
    && ExpiryOk(births)
    && LogOk(births, log)
    && GrowthOk(births, log)
  }

  ghost predicate StoredOk(users: Users, tokens: Tokens, births: Births, chain: Chains, log: seq<Event>) {
    && RowsOk(users, tokens, births)
    && TailOk(tokens, births, chain)
    && SuffixOk(tokens, births)
    && CurrentOk(users, tokens, births)
    && EndedOk(tokens, births, log)
  }

  /** The history stays behind what has been drawn, the clock and the credentials, and old rows are kept. */
  ghost predicate PaceOk(s: State) {
    && s.cfg.Valid()
    && s.births.Keys <= s.seen && s.chain.Keys <= s.seenFamilies
    && ExpiresBy(s.births, s.now + s.cfg.ttl)
    && VersionsOk(s.users, s.passwordAt, s.nextUser) && RootsOk(s.births, s.passwordAt)
    && KeptOk(s.users, s.tokens, s.births, s.now - s.cfg.retention)
  }

  ghost predicate TablesOk(s: State) {
    && PaceOk(s)
    && HistoryOk(s.births, s.chain, s.log)
    && StoredOk(s.users, s.tokens, s.births, s.chain, s.log)
  }

  // ------------------------------------------------------------ what a call in progress knows

  /** A drawn token that may still be stored, with its expiry. */
  ghost function Drawn(c: Call): Option<(TokenHash, Time)> {
    match c
    case LoginIssued(x) => if x.unseen then Some((x.hash, x.expires)) else None
    case CreateLocked(x) => if x.unseen then Some((x.hash, x.expires)) else None
    case CreateInserted(x, _) => Some((x.hash, x.expires))
    case RefreshBegun(x) => if x.unseen then Some((x.replacement, x.expires)) else None
    case RotateFound(x, _) => if x.unseen then Some((x.replacement, x.expires)) else None
    case RotateLocked(x, _) => if x.unseen then Some((x.replacement, x.expires)) else None
    case RotateConsumed(x, _) => if x.unseen then Some((x.replacement, x.expires)) else None
    case RotateInserted(x, _, _) => Some((x.replacement, x.expires))
    case _ => None
  }

  /** The token an exchange presents, with the expiry of what it would store. */
  ghost function Presents(c: Call): Option<(TokenHash, Time)> {
    match c
    case RefreshBegun(x) => Some((x.presented, x.expires))
    case RotateFound(x, _) => Some((x.presented, x.expires))
    case RotateLocked(x, _) => Some((x.presented, x.expires))
    case RotateConsumed(x, _) => Some((x.presented, x.expires))
    case RotateInserted(x, _, _) => Some((x.presented, x.expires))
    case _ => None
  }

  ghost predicate Verified(s: State, user: UserId, version: nat, password: PasswordHash) {
    (user, version) in s.passwordAt && s.passwordAt[(user, version)] == password
  }

  ghost predicate AtVersion(s: State, user: UserId, version: nat) {
    user in s.users && s.users[user].version == version
  }

  ghost predicate Owns(s: State, owner: UserId, h: TokenHash) {
    h in s.births && s.births[h].user == owner
  }

  ghost predicate Held(s: State, owner: UserId, h: TokenHash) {
    h in s.tokens && Active(s.tokens[h]) && s.tokens[h].user == owner
  }

  /** The row a password change has written is the committed row with the fields of the edit. */
  ghost predicate Edits(s: State, owner: UserId, fields: UserUpdate, updated: User) {
    owner in s.users && fields.password.Some? && updated == UpdatedUser(s.users[owner], fields)
  }

  /** The assertion that belongs to each program counter. */
  ghost predicate PointOk(s: State, c: Call) {
    match c
    case Idle => true
    case LoginVerified(u, p, v) => Verified(s, u, v, p)
    case LoginIssued(x) => Verified(s, x.user, x.version, x.password)
    case CreateLocked(x) => Verified(s, x.user, x.version, x.password) && AtVersion(s, x.user, x.version)
    case CreateInserted(x, f) =>
      && Verified(s, x.user, x.version, x.password) && AtVersion(s, x.user, x.version)
      && f in s.seenFamilies && f !in s.chain && x.unseen
    case RefreshBegun(x) => true
    case RotateFound(x, owner) => Owns(s, owner, x.presented)
    case RotateLocked(x, owner) => Owns(s, owner, x.presented)
    case RotateConsumed(x, owner) => Owns(s, owner, x.presented) && Held(s, owner, x.presented)
    case RotateInserted(x, owner, f) =>
      && Owns(s, owner, x.presented) && Held(s, owner, x.presented)
      && s.tokens[x.presented].family == f && x.unseen
    case RotateMissed(p, owner, at) =>
      && Owns(s, owner, p) && at <= s.now
      && (p in s.tokens && Active(s.tokens[p]) ==> s.tokens[p].expires <= at)
    case RotateReplay(p, owner) => Owns(s, owner, p)
    case RotateEnding(p, owner, targets) => Owns(s, owner, p) && targets == ActiveOf(s.tokens, owner)
    case ChangeLocked(owner, fields) => fields.password.Some?
    case ChangeWritten(owner, fields, updated) => Edits(s, owner, fields, updated)
    case ChangeRevoked(owner, fields, updated, targets) =>
      Edits(s, owner, fields, updated) && targets == ActiveOf(s.tokens, owner)
    case BulkLocked(owner) => true
    case BulkRevoked(owner, targets) => targets == ActiveOf(s.tokens, owner)
    case SweepDue(cutoff) => cutoff <= s.now - s.cfg.retention
    case Counting(_, _) => true
  }

  ghost predicate CallOk(s: State, c: Call) {
    && (ExclusiveOn(c).Some? ==> ExclusiveOn(c).value in s.users)
    && (SharedOn(c).Some? ==> SharedOn(c).value in s.users)
    && (Drawn(c).Some? ==>
          var d := Drawn(c).value;
          d.0 in s.seen && d.0 !in s.births && d.1 <= s.now + s.cfg.ttl)
    && (Presents(c).Some? ==>
          var p := Presents(c).value;
          && p.0 in s.seen
          && (p.0 in s.births ==> s.births[p.0].expires <= p.1)
          && (Drawn(c).Some? ==> Drawn(c).value.0 != p.0))
    && PointOk(s, c)
  }

  /** What two calls may not hold at the same time. */
  ghost predicate Apart(c: Call, d: Call) {
    && (ExclusiveOn(c).Some? ==> ExclusiveOn(d) != ExclusiveOn(c) && SharedOn(d) != ExclusiveOn(c))
    && (Drawn(c).Some? && Drawn(d).Some? ==> Drawn(c).value.0 != Drawn(d).value.0)
    && (c.CreateInserted? && d.CreateInserted? ==> c.family != d.family)
    && (Presents(c).Some? && Drawn(d).Some? && Presents(c).value.0 == Drawn(d).value.0 ==>
          Presents(c).value.1 >= Drawn(d).value.1)
  }

  ghost predicate CallsOk(s: State) {
    && (forall i :: 0 <= i < |s.calls| ==> CallOk(s, s.calls[i]))
    && (forall i, j :: 0 <= i < |s.calls| && 0 <= j < |s.calls| && i != j ==> Apart(s.calls[i], s.calls[j]))
  }

  ghost predicate Inv(s: State) {
    TablesOk(s) && CallsOk(s)
  }

  // ------------------------------------------------------------ frames

  /** `t` differs from `s` only in the clock, in what has been drawn, and in refusals logged. */
  ghost predicate SameTables(s: State, t: State) {
    && t.cfg == s.cfg && t.users == s.users && t.tokens == s.tokens && t.nextUser == s.nextUser
    && t.births == s.births && t.chain == s.chain && t.passwordAt == s.passwordAt
    && s.now <= t.now && s.seen <= t.seen && s.seenFamilies <= t.seenFamilies
    && Noted(s.log, t.log)
  }

  /** `t` is `s` followed by one event that ends no session and rotates nothing. */
  ghost predicate Noted(s: seq<Event>, t: seq<Event>) {
    t == s || (|t| == |s| + 1 && t[..|s|] == s && t[|s|].RotateRefused?)
  }

  lemma HistoryNoted(births: Births, chain: Chains, log: seq<Event>, more: seq<Event>)
    requires HistoryOk(births, chain, log) && Noted(log, more)
    ensures HistoryOk(births, chain, more)
  {
    assert forall k :: 0 <= k < |log| ==> more[k] == log[k];
    forall h | h in births ensures OnChain(births, chain, h) && Descends(births, chain, more, h) {
      assert OnChain(births, chain, h);
    }
  }

  lemma EndedNoted(tokens: Tokens, births: Births, log: seq<Event>, more: seq<Event>)
    requires EndedOk(tokens, births, log) && Noted(log, more)
    ensures EndedOk(tokens, births, more)
  {
    assert forall k :: 0 <= k < |log| ==> more[k] == log[k];
  }

  lemma SameTablesOk(s: State, t: State)
    requires TablesOk(s) && SameTables(s, t)
    ensures TablesOk(t)
  {
    HistoryNoted(s.births, s.chain, s.log, t.log);
    EndedNoted(s.tokens, s.births, s.log, t.log);
  }

  lemma CallStays(s: State, t: State, c: Call)
    requires CallOk(s, c) && SameTables(s, t)
    ensures CallOk(t, c)
  {
  }

  /** From `c` to `d` a call draws only what nobody has seen, and takes a lock only if nobody else
      is in the way. */
  ghost predicate Moves(s: State, i: nat, c: Call, d: Call) {
    && (Drawn(d).Some? && Drawn(d) != Drawn(c) ==> Drawn(d).value.0 !in s.seen)
    && (Presents(d).Some? && Presents(d) != Presents(c) ==> Presents(d).value.1 == s.now + s.cfg.ttl)
    && (ExclusiveOn(d).Some? && ExclusiveOn(d) != ExclusiveOn(c) ==>
          NoExclusive(s, i, ExclusiveOn(d).value) && NoShared(s, i, ExclusiveOn(d).value))
    && (SharedOn(d).Some? && SharedOn(d) != SharedOn(c) ==> NoExclusive(s, i, SharedOn(d).value))
    && (d.CreateInserted? ==> d.family !in s.seenFamilies)
  }

  lemma MoveApart(s: State, i: nat, d: Call)
    requires CallsOk(s) && At(s, i) && Moves(s, i, s.calls[i], d)
    ensures forall j :: 0 <= j < |s.calls| && j != i ==> Apart(d, s.calls[j]) && Apart(s.calls[j], d)
  {
    forall j | 0 <= j < |s.calls| && j != i ensures Apart(d, s.calls[j]) && Apart(s.calls[j], d) {
      assert CallOk(s, s.calls[j]);
      assert Apart(s.calls[i], s.calls[j]) && Apart(s.calls[j], s.calls[i]);
    }
  }

  /** `t` is `s` after a statement of call `i` that wrote nothing. */
  ghost predicate Advances(s: State, t: State, i: nat) {
    && SameTables(s, t) && At(s, i)
    && |t.calls| == |s.calls| && t.calls == s.calls[i := t.calls[i]]
    && Moves(s, i, s.calls[i], t.calls[i])
    && CallOk(t, t.calls[i])
  }

  lemma AdvanceStep(s: State, t: State, i: nat)
    requires Inv(s) && Advances(s, t, i)
    ensures Inv(t)
  {
    SameTablesOk(s, t);
    MoveApart(s, i, t.calls[i]);
    forall j | 0 <= j < |t.calls| ensures CallOk(t, t.calls[j]) {
      if j != i { CallStays(s, t, s.calls[j]); }
    }
  }
}
