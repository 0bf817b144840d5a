/** The refresh-session protocol as a step system.

    The database holds the committed `users` and `refresh_tokens` rows. Every use-case call in
    progress is a `Call`: its program counter together with the values its transaction has read
    and the writes it has buffered. A step executes one SQL statement (or one commit) of one call
    under Read Committed: it reads committed rows, and buffered writes reach the tables only at the
    commit step. Row locks are a function of the program counters, see `ExclusiveOn`, `SharedOn`
    and `LocksRow`; a statement that would wait for a lock is simply not enabled yet.

    The fields of `State` after `counters` are history: no statement reads them, except that `seen`
    and `seenFamilies` say what a fresh random value must avoid. */
module SessionModel {
  import opened Wrappers

  type UserId = nat
  type TokenHash = nat
  type FamilyId = nat
  type PasswordHash = nat
  type Time = int

  // ---------------------------------------------------------------- tables

  /** refresh_tokens.revoked_reason */
  datatype Reason = Rotated | LoggedOut | PasswordChanged | Reused

  /** One row of refresh_tokens, keyed by its hash. */
  datatype Row = Row(user: UserId, family: FamilyId, expires: Time,
                     revokedAt: Option<Time>, reason: Option<Reason>)

  /** One row of users, keyed by its id. `profile` stands for username and email. */
  datatype User = User(password: PasswordHash, version: nat, profile: nat)

  /** domain.UserUpdate: absent fields are left unchanged. */
  datatype UserUpdate = UserUpdate(profile: Option<nat>, password: Option<PasswordHash>)

  type Tokens = map<TokenHash, Row>

  predicate Active(row: Row) {
    row.revokedAt.None?
  }

  predicate Live(row: Row, now: Time) {
    Active(row) && row.expires > now
  }

  predicate FamilyLive(tokens: Tokens, family: FamilyId, now: Time) {
    exists h :: h in tokens && tokens[h].family == family && Live(tokens[h], now)
  }

  /** What `revokeAllOfUser` selects. */
  function ActiveOf(tokens: Tokens, user: UserId): set<TokenHash> {
    set h | h in tokens && tokens[h].user == user && Active(tokens[h])
  }

  function RevokedRow(row: Row, at: Time, reason: Reason): Row {
    row.(revokedAt := Some(at), reason := Some(reason))
  }

  /** The rows of `targets` revoked with `reason`, every other row as it was. */
  function RevokeRows(tokens: Tokens, targets: set<TokenHash>, at: Time, reason: Reason): Tokens {
    map h | h in tokens :: if h in targets then RevokedRow(tokens[h], at, reason) else tokens[h]
  }

  function CredentialsBump(fields: UserUpdate): nat {
    if fields.password.Some? then 1 else 0
  }

  /** The SET list of `updateUserQuery`. */
  function UpdatedUser(user: User, fields: UserUpdate): User {
    User(if fields.password.Some? then fields.password.value else user.password,
         user.version + CredentialsBump(fields),
         if fields.profile.Some? then fields.profile.value else user.profile)
  }

  // ------------------------------------------------- classifying a failed consume

  datatype Verdict = Reuse | Revoked | Unknown | Expired | NotUsable

  /** The switch of `handleUnusable`. `at` is the clock reading of the expiry column and `familyAt`
      the one of the EXISTS subquery. */
  function Classify(tokens: Tokens, hash: TokenHash, at: Time, familyAt: Time): Verdict {
    if hash !in tokens then Unknown
    else
      var row := tokens[hash];
      if Active(row) && row.expires <= at then Expired
      else if Active(row) then NotUsable
      else if row.reason.None? || row.reason.value != Rotated || !FamilyLive(tokens, row.family, familyAt) then Revoked
      else Reuse
  }

  // ---------------------------------------------------------------- calls

  datatype Counter = LogoutSessions | ReuseSessions | PasswordSessions | Rotations

  datatype Counters = Counters(logout: nat, reuse: nat, password: nat, rotations: nat)

  function Counted(c: Counters, which: Counter, n: nat): Counters {
    match which
    case LogoutSessions => c.(logout := c.logout + n)
    case ReuseSessions => c.(reuse := c.reuse + n)
    case PasswordSessions => c.(password := c.password + n)
    case Rotations => c.(rotations := c.rotations + n)
  }

  /** A refresh call's values: the presented hash, and the replacement drawn for it with its expiry.
      `unseen` records whether the random source returned a value never drawn or presented before. */
  datatype Exchange = Exchange(presented: TokenHash, replacement: TokenHash, expires: Time, unseen: bool)

  /** A login's values: what it verified, and the token drawn for it. */
  datatype Session = Session(user: UserId, password: PasswordHash, version: nat,
                             hash: TokenHash, expires: Time, unseen: bool)

  datatype Call =
    | Idle
    // login: GetByUsername and Verify, then issueTokens, then Create
    | LoginVerified(user: UserId, password: PasswordHash, version: nat)
    | LoginIssued(session: Session)
    | CreateLocked(session: Session)
    | CreateInserted(session: Session, family: FamilyId)
    // Refresh, then Rotate
    | RefreshBegun(x: Exchange)
    | RotateFound(x: Exchange, owner: UserId)
    | RotateLocked(x: Exchange, owner: UserId)
    | RotateConsumed(x: Exchange, owner: UserId)
    | RotateInserted(x: Exchange, owner: UserId, family: FamilyId)
    // Rotate after a consume that matched no row, into handleUnusable
    | RotateMissed(presented: TokenHash, owner: UserId, missedAt: Time)
    | RotateReplay(presented: TokenHash, owner: UserId)
    | RotateEnding(presented: TokenHash, owner: UserId, targets: set<TokenHash>)
    // Update with a password: UpdateAndRevokeSessions
    | ChangeLocked(owner: UserId, fields: UserUpdate)
    | ChangeWritten(owner: UserId, fields: UserUpdate, updated: User)
    | ChangeRevoked(owner: UserId, fields: UserUpdate, updated: User, targets: set<TokenHash>)
    // RevokeAllForUser
    | BulkLocked(owner: UserId)
    | BulkRevoked(owner: UserId, targets: set<TokenHash>)
    // CleanupOnce
    | SweepDue(cutoff: Time)
    // after a commit, before the use case updates its counter
    | Counting(which: Counter, amount: nat)

  /** The user row a call holds FOR UPDATE. */
  function ExclusiveOn(c: Call): Option<UserId> {
    match c
    case RotateLocked(_, u) => Some(u)
    case RotateConsumed(_, u) => Some(u)
    case RotateInserted(_, u, _) => Some(u)
    case RotateMissed(_, u, _) => Some(u)
    case RotateReplay(_, u) => Some(u)
    case RotateEnding(_, u, _) => Some(u)
    case ChangeLocked(u, _) => Some(u)
    case ChangeWritten(u, _, _) => Some(u)
    case ChangeRevoked(u, _, _, _) => Some(u)
    case BulkLocked(u) => Some(u)
    case BulkRevoked(u, _) => Some(u)
    case _ => None
  }

  /** The user row a call holds FOR SHARE. */
  function SharedOn(c: Call): Option<UserId> {
    match c
    case CreateLocked(x) => Some(x.user)
    case CreateInserted(x, _) => Some(x.user)
    case _ => None
  }

  /** The token rows a call has updated and not yet committed. */
  predicate LocksRow(c: Call, h: TokenHash) {
    match c
    case RotateConsumed(x, _) => h == x.presented
    case RotateInserted(x, _, _) => h == x.presented
    case RotateEnding(_, _, targets) => h in targets
    case ChangeRevoked(_, _, _, targets) => h in targets
    case BulkRevoked(_, targets) => h in targets
    case _ => false
  }

  // ---------------------------------------------------------------- history

  /** How a token came to be. `login` is the log index of the login its chain started with, `born`
      the index of the event that stored this token; `password` and `version` are what that login
      verified. */
  datatype Birth = Birth(user: UserId, family: FamilyId, expires: Time, depth: nat,
                         parent: Option<TokenHash>, login: nat, born: nat,
                         password: PasswordHash, version: nat)

  datatype Event =
    | LoginStored(user: UserId, hash: TokenHash, family: FamilyId, password: PasswordHash)
    | TokenRotated(user: UserId, presented: TokenHash, replacement: TokenHash)
    | ReuseEnded(user: UserId, presented: TokenHash, revoked: set<TokenHash>)
    | PasswordReplaced(user: UserId, revoked: set<TokenHash>)
    | UserRevoked(user: UserId, revoked: set<TokenHash>)
    | RotateRefused(presented: TokenHash, verdict: Verdict)

  /** The events that end every session of `user`. */
  predicate EndsSessions(e: Event, user: UserId) {
    (e.ReuseEnded? || e.PasswordReplaced? || e.UserRevoked?) && e.user == user
  }

  datatype Config = Config(ttl: Time, retention: Time) {
    predicate Valid() {
      ttl > 0 && retention > 0
    }
  }

  datatype State = State(
    cfg: Config,
    now: Time,
    users: map<UserId, User>,
    tokens: Tokens,
    nextUser: UserId,
    calls: seq<Call>,
    counters: Counters,
    seen: set<TokenHash>,
    seenFamilies: set<FamilyId>,
    births: map<TokenHash, Birth>,
    chain: map<FamilyId, seq<TokenHash>>,
    passwordAt: map<(UserId, nat), PasswordHash>,
    log: seq<Event>)

  /** Empty tables and any number of idle callers. */
  predicate Initial(s: State) {
    && s.cfg.Valid()
    && s.users == map[] && s.tokens == map[]
    && (forall i :: 0 <= i < |s.calls| ==> s.calls[i] == Idle)
    && s.counters == Counters(0, 0, 0, 0)
    && s.seen == {} && s.seenFamilies == {}
    && s.births == map[] && s.chain == map[] && s.passwordAt == map[]
    && s.log == []
  }

  // ---------------------------------------------------------------- lock waits

  predicate NoExclusive(s: State, i: nat, user: UserId) {
    forall j :: 0 <= j < |s.calls| && j != i ==> ExclusiveOn(s.calls[j]) != Some(user)
  }

  predicate NoShared(s: State, i: nat, user: UserId) {
    forall j :: 0 <= j < |s.calls| && j != i ==> SharedOn(s.calls[j]) != Some(user)
  }

  predicate RowFree(s: State, i: nat, h: TokenHash) {
    forall j :: 0 <= j < |s.calls| && j != i ==> !LocksRow(s.calls[j], h)
  }

  // ---------------------------------------------------------------- steps

  /** Single-statement writes to users. */
  datatype UserStep =
    | Register(password: PasswordHash, profile: nat)
    | DeleteUser(user: UserId)
    | ProfileUpdate(user: UserId, fields: UserUpdate)

  /** login, issueTokens and Create. */
  datatype LoginStep =
    | LoginRead(user: UserId)
    | LoginIssue(hash: TokenHash)
    | CreateLock
    | CreateInsert(family: FamilyId)
    | CreateCommit

  /** Refresh and Rotate. */
  datatype RefreshStep =
    | RefreshBegin(presented: TokenHash, replacement: TokenHash)
    | RotateLookup
    | RotateLock
    | RotateConsume
    | RotateInsert
    | RotateCommit
    | RotateInspect(at: Time, familyAt: Time)
    | RotateRevoke
    | ReuseCommit

  /** Logout, UpdateAndRevokeSessions and RevokeAllForUser. */
  datatype OwnerStep =
    | Logout(hash: TokenHash)
    | ChangeLock(user: UserId, fields: UserUpdate)
    | ChangeWrite
    | ChangeRevoke
    | ChangeCommit
    | BulkLock(user: UserId)
    | BulkRevoke
    | BulkCommit

  /** Cleanup, and what any call may do. */
  datatype OtherStep =
    | SweepBegin
    | SweepRun
    | Fail
    | Count

  datatype Action =
    | Tick(to: Time)
    | OnUsers(user: UserStep)
    | OnLogin(i: nat, login: LoginStep)
    | OnRefresh(i: nat, refresh: RefreshStep)
    | OnOwner(i: nat, owner: OwnerStep)
    | OnOther(i: nat, other: OtherStep)

  /** The caller a step belongs to; the clock and the single-statement user writes belong to none. */
  function Caller(a: Action): Option<nat> {
    if a.Tick? || a.OnUsers? then None else Some(a.i)
  }

  function Goto(s: State, c: int, call: Call): State
    requires 0 <= c < |s.calls|
  {
    s.(calls := s.calls[c := call])
  }

  function Refuse(s: State, c: int, presented: TokenHash, verdict: Verdict): State
    requires 0 <= c < |s.calls|
  {
    Goto(s, c, Idle).(log := s.log + [RotateRefused(presented, verdict)])
  }

  predicate At(s: State, i: nat) {
    i < |s.calls|
  }

  // ---- login

  predicate CanLoginRead(s: State, i: nat, user: UserId) {
    At(s, i) && s.calls[i].Idle? && user in s.users
  }

  /** GetByUsername followed by a successful Verify against the hash it read. */
  function DoLoginRead(s: State, i: nat, user: UserId): State
    requires CanLoginRead(s, i, user)
  {
    Goto(s, i, LoginVerified(user, s.users[user].password, s.users[user].version))
  }

  predicate CanLoginIssue(s: State, i: nat) {
    At(s, i) && s.calls[i].LoginVerified?
  }

  function DoLoginIssue(s: State, i: nat, hash: TokenHash): State
    requires CanLoginIssue(s, i)
  {
    var c := s.calls[i];
    Goto(s, i, LoginIssued(Session(c.user, c.password, c.version, hash, s.now + s.cfg.ttl, hash !in s.seen)))
      .(seen := s.seen + {hash})
  }

  predicate CanCreateLock(s: State, i: nat) {
    At(s, i) && s.calls[i].LoginIssued? && NoExclusive(s, i, s.calls[i].session.user)
  }

  /** SELECT credentials_version ... FOR SHARE; a missing user or another version ends the call. */
  function DoCreateLock(s: State, i: nat): State
    requires CanCreateLock(s, i)
  {
    var x := s.calls[i].session;
    if x.user !in s.users then Goto(s, i, Idle)
    else if s.users[x.user].version != x.version then Goto(s, i, Idle)
    else Goto(s, i, CreateLocked(x))
  }

  predicate CanCreateInsert(s: State, i: nat, family: FamilyId) {
    && At(s, i) && s.calls[i].CreateLocked?
    && (s.calls[i].session.hash in s.tokens || (s.calls[i].session.unseen && family !in s.seenFamilies))
  }

  function DoCreateInsert(s: State, i: nat, family: FamilyId): State
    requires CanCreateInsert(s, i, family)
  {
    var x := s.calls[i].session;
    if x.hash in s.tokens then Goto(s, i, Idle)
    else Goto(s, i, CreateInserted(x, family)).(seenFamilies := s.seenFamilies + {family})
  }

  predicate CanCreateCommit(s: State, i: nat) {
    At(s, i) && s.calls[i].CreateInserted?
  }

  function DoCreateCommit(s: State, i: nat): State
    requires CanCreateCommit(s, i)
  {
    var x, family := s.calls[i].session, s.calls[i].family;
    Goto(s, i, Idle).(
      tokens := s.tokens[x.hash := Row(x.user, family, x.expires, None, None)],
      births := s.births[x.hash := Birth(x.user, family, x.expires, 0, None, |s.log|, |s.log|, x.password, x.version)],
      chain := s.chain[family := [x.hash]],
      log := s.log + [LoginStored(x.user, x.hash, family, x.password)])
  }

  // ---- refresh

  predicate CanRefreshBegin(s: State, i: nat) {
    At(s, i) && s.calls[i].Idle?
  }

  function DoRefreshBegin(s: State, i: nat, presented: TokenHash, replacement: TokenHash): State
    requires CanRefreshBegin(s, i)
  {
    Goto(s, i, RefreshBegun(Exchange(presented, replacement, s.now + s.cfg.ttl,
                                     replacement !in s.seen && replacement != presented)))
      .(seen := s.seen + {presented, replacement})
  }

  predicate CanRotateLookup(s: State, i: nat) {
    At(s, i) && s.calls[i].RefreshBegun?
  }

  function DoRotateLookup(s: State, i: nat): State
    requires CanRotateLookup(s, i)
  {
    var x := s.calls[i].x;
    if x.presented !in s.tokens then Refuse(s, i, x.presented, Unknown)
    else Goto(s, i, RotateFound(x, s.tokens[x.presented].user))
  }

  predicate CanRotateLock(s: State, i: nat) {
    && At(s, i) && s.calls[i].RotateFound?
    && NoExclusive(s, i, s.calls[i].owner) && NoShared(s, i, s.calls[i].owner)
  }

  function DoRotateLock(s: State, i: nat): State
    requires CanRotateLock(s, i)
  {
    var x, owner := s.calls[i].x, s.calls[i].owner;
    if owner !in s.users then Refuse(s, i, x.presented, Unknown)
    else Goto(s, i, RotateLocked(x, owner))
  }

  predicate CanRotateConsume(s: State, i: nat) {
    At(s, i) && s.calls[i].RotateLocked? && RowFree(s, i, s.calls[i].x.presented)
  }

  function DoRotateConsume(s: State, i: nat): State
    requires CanRotateConsume(s, i)
  {
    var x, owner := s.calls[i].x, s.calls[i].owner;
    if x.presented in s.tokens && Live(s.tokens[x.presented], s.now) then Goto(s, i, RotateConsumed(x, owner))
    else Goto(s, i, RotateMissed(x.presented, owner, s.now))
  }

  predicate CanRotateInsert(s: State, i: nat) {
    && At(s, i) && s.calls[i].RotateConsumed?
    && (s.calls[i].x.presented !in s.tokens || s.calls[i].x.replacement in s.tokens || s.calls[i].x.unseen)
  }

  /** INSERT ... SELECT from the consumed row: no source row, or a hash already stored, is an
      internal error and rolls back. */
  function DoRotateInsert(s: State, i: nat): State
    requires CanRotateInsert(s, i)
  {
    var x, owner := s.calls[i].x, s.calls[i].owner;
    if x.presented !in s.tokens || x.replacement in s.tokens then Goto(s, i, Idle)
    else Goto(s, i, RotateInserted(x, owner, s.tokens[x.presented].family))
  }

  predicate CanRotateCommit(s: State, i: nat) {
    && At(s, i) && s.calls[i].RotateInserted?
    && s.calls[i].x.presented in s.tokens
    && s.calls[i].x.presented in s.births
    && s.calls[i].family in s.chain
  }

  function DoRotateCommit(s: State, i: nat): State
    requires CanRotateCommit(s, i)
  {
    var x, family := s.calls[i].x, s.calls[i].family;
    var source, parent := s.tokens[x.presented], s.births[x.presented];
    Goto(s, i, Counting(Rotations, 1)).(
      tokens := s.tokens[x.presented := RevokedRow(source, s.now, Rotated)]
                        [x.replacement := Row(source.user, family, x.expires, None, None)],
      births := s.births[x.replacement := Birth(source.user, family, x.expires, parent.depth + 1,
                                                Some(x.presented), parent.login, |s.log|,
                                                parent.password, parent.version)],
      chain := s.chain[family := s.chain[family] + [x.replacement]],
      log := s.log + [TokenRotated(source.user, x.presented, x.replacement)])
  }

  predicate CanRotateInspect(s: State, i: nat, at: Time, familyAt: Time) {
    At(s, i) && s.calls[i].RotateMissed? && s.now <= at <= familyAt
  }

  function DoRotateInspect(s: State, i: nat, at: Time, familyAt: Time): State
    requires CanRotateInspect(s, i, at, familyAt)
  {
    var presented, owner := s.calls[i].presented, s.calls[i].owner;
    var verdict := Classify(s.tokens, presented, at, familyAt);
    if verdict == Reuse then Goto(s, i, RotateReplay(presented, owner)).(now := familyAt)
    else Refuse(s, i, presented, verdict).(now := familyAt)
  }

  predicate AllFree(s: State, i: nat, user: UserId) {
    forall h :: h in ActiveOf(s.tokens, user) ==> RowFree(s, i, h)
  }

  predicate CanRotateRevoke(s: State, i: nat) {
    At(s, i) && s.calls[i].RotateReplay? && AllFree(s, i, s.calls[i].owner)
  }

  function DoRotateRevoke(s: State, i: nat): State
    requires CanRotateRevoke(s, i)
  {
    var c := s.calls[i];
    Goto(s, i, RotateEnding(c.presented, c.owner, ActiveOf(s.tokens, c.owner)))
  }

  predicate CanReuseCommit(s: State, i: nat) {
    At(s, i) && s.calls[i].RotateEnding?
  }

  function DoReuseCommit(s: State, i: nat): State
    requires CanReuseCommit(s, i)
  {
    var presented, owner, targets := s.calls[i].presented, s.calls[i].owner, s.calls[i].targets;
    Goto(s, i, Counting(ReuseSessions, |targets|)).(
      tokens := RevokeRows(s.tokens, targets, s.now, Reused),
      log := s.log + [ReuseEnded(owner, presented, targets)])
  }

  // ---- logout, password change, bulk revocation

  predicate CanLogout(s: State, i: nat, hash: TokenHash) {
    At(s, i) && s.calls[i].Idle? && RowFree(s, i, hash)
  }

  function DoLogout(s: State, i: nat, hash: TokenHash): State
    requires CanLogout(s, i, hash)
  {
    if hash in s.tokens && Active(s.tokens[hash]) then
      Goto(s, i, Counting(LogoutSessions, 1)).(tokens := RevokeRows(s.tokens, {hash}, s.now, LoggedOut))
    else s
  }

  /** The use case sends only edits that carry a password to UpdateAndRevokeSessions. */
  predicate CanChangeLock(s: State, i: nat, user: UserId, fields: UserUpdate) {
    && At(s, i) && s.calls[i].Idle? && fields.password.Some?
    && NoExclusive(s, i, user) && NoShared(s, i, user)
  }

  function DoChangeLock(s: State, i: nat, user: UserId, fields: UserUpdate): State
    requires CanChangeLock(s, i, user, fields)
  {
    if user !in s.users then s else Goto(s, i, ChangeLocked(user, fields))
  }

  predicate CanChangeWrite(s: State, i: nat) {
    At(s, i) && s.calls[i].ChangeLocked?
  }

  function DoChangeWrite(s: State, i: nat): State
    requires CanChangeWrite(s, i)
  {
    var owner, fields := s.calls[i].owner, s.calls[i].fields;
    if owner !in s.users then Goto(s, i, Idle)
    else Goto(s, i, ChangeWritten(owner, fields, UpdatedUser(s.users[owner], fields)))
  }

  predicate CanChangeRevoke(s: State, i: nat) {
    At(s, i) && s.calls[i].ChangeWritten? && AllFree(s, i, s.calls[i].owner)
  }

  function DoChangeRevoke(s: State, i: nat): State
    requires CanChangeRevoke(s, i)
  {
    var c := s.calls[i];
    Goto(s, i, ChangeRevoked(c.owner, c.fields, c.updated, ActiveOf(s.tokens, c.owner)))
  }

  predicate CanChangeCommit(s: State, i: nat) {
    At(s, i) && s.calls[i].ChangeRevoked?
  }

  function DoChangeCommit(s: State, i: nat): State
    requires CanChangeCommit(s, i)
  {
    var owner, updated, targets := s.calls[i].owner, s.calls[i].updated, s.calls[i].targets;
    Goto(s, i, Counting(PasswordSessions, |targets|)).(
      users := s.users[owner := updated],
      tokens := RevokeRows(s.tokens, targets, s.now, PasswordChanged),
      passwordAt := s.passwordAt[(owner, updated.version) := updated.password],
      log := s.log + [PasswordReplaced(owner, targets)])
  }

  predicate CanBulkLock(s: State, i: nat, user: UserId) {
    At(s, i) && s.calls[i].Idle? && NoExclusive(s, i, user) && NoShared(s, i, user)
  }

  function DoBulkLock(s: State, i: nat, user: UserId): State
    requires CanBulkLock(s, i, user)
  {
    if user !in s.users then s else Goto(s, i, BulkLocked(user))
  }

  predicate CanBulkRevoke(s: State, i: nat) {
    At(s, i) && s.calls[i].BulkLocked? && AllFree(s, i, s.calls[i].owner)
  }

  function DoBulkRevoke(s: State, i: nat): State
    requires CanBulkRevoke(s, i)
  {
    Goto(s, i, BulkRevoked(s.calls[i].owner, ActiveOf(s.tokens, s.calls[i].owner)))
  }

  predicate CanBulkCommit(s: State, i: nat) {
    At(s, i) && s.calls[i].BulkRevoked?
  }

  function DoBulkCommit(s: State, i: nat): State
    requires CanBulkCommit(s, i)
  {
    var owner, targets := s.calls[i].owner, s.calls[i].targets;
    Goto(s, i, Idle).(
      tokens := RevokeRows(s.tokens, targets, s.now, LoggedOut),
      log := s.log + [UserRevoked(owner, targets)])
  }

  // ---- rows that disappear

  predicate CanDeleteUser(s: State, user: UserId) {
    && NoExclusive(s, |s.calls|, user) && NoShared(s, |s.calls|, user)
    && forall h :: h in s.tokens && s.tokens[h].user == user ==> RowFree(s, |s.calls|, h)
  }

  /** DELETE FROM users, with the ON DELETE CASCADE of refresh_tokens.user_id. */
  function DoDeleteUser(s: State, user: UserId): State
    requires CanDeleteUser(s, user)
  {
    s.(users := s.users - {user},
       tokens := map h | h in s.tokens && s.tokens[h].user != user :: s.tokens[h])
  }

  predicate CanSweepBegin(s: State, i: nat) {
    At(s, i) && s.calls[i].Idle?
  }

  function DoSweepBegin(s: State, i: nat): State
    requires CanSweepBegin(s, i)
  {
    Goto(s, i, SweepDue(s.now - s.cfg.retention))
  }

  predicate CanSweepRun(s: State, i: nat) {
    && At(s, i) && s.calls[i].SweepDue?
    && forall h :: h in s.tokens && s.tokens[h].expires < s.calls[i].cutoff ==> RowFree(s, i, h)
  }

  function DoSweepRun(s: State, i: nat): State
    requires CanSweepRun(s, i)
  {
    Goto(s, i, Idle).(
      tokens := map h | h in s.tokens && !(s.tokens[h].expires < s.calls[i].cutoff) :: s.tokens[h])
  }

  // ---- users

  function DoRegister(s: State, password: PasswordHash, profile: nat): State {
    s.(users := s.users[s.nextUser := User(password, 1, profile)],
       passwordAt := s.passwordAt[(s.nextUser, 1) := password],
       nextUser := s.nextUser + 1)
  }

  /** The use case sends only edits without a password to the plain Update. */
  predicate CanProfileUpdate(s: State, user: UserId, fields: UserUpdate) {
    fields.password.None? && NoExclusive(s, |s.calls|, user) && NoShared(s, |s.calls|, user)
  }

  function DoProfileUpdate(s: State, user: UserId, fields: UserUpdate): State
    requires CanProfileUpdate(s, user, fields)
  {
    if user !in s.users then s
    else s.(users := s.users[user := UpdatedUser(s.users[user], fields)])
  }

  // ---- any call

  /** Any statement may fail, or the call's context end, before its commit: the transaction rolls back. */
  predicate CanFail(s: State, i: nat) {
    At(s, i) && !s.calls[i].Counting?
  }

  function DoFail(s: State, i: nat): State
    requires CanFail(s, i)
  {
    Goto(s, i, Idle)
  }

  predicate CanCount(s: State, i: nat) {
    At(s, i) && s.calls[i].Counting?
  }

  function DoCount(s: State, i: nat): State
    requires CanCount(s, i)
  {
    Goto(s, i, Idle).(counters := Counted(s.counters, s.calls[i].which, s.calls[i].amount))
  }

  // ---- all steps

  predicate UserEnabled(s: State, a: UserStep) {
    match a
    case Register(_, _) => true
    case DeleteUser(user) => CanDeleteUser(s, user)
    case ProfileUpdate(user, fields) => CanProfileUpdate(s, user, fields)
  }

  function UserApply(s: State, a: UserStep): State
    requires UserEnabled(s, a)
  {
    match a
    case Register(password, profile) => DoRegister(s, password, profile)
    case DeleteUser(user) => DoDeleteUser(s, user)
    case ProfileUpdate(user, fields) => DoProfileUpdate(s, user, fields)
  }

  predicate LoginEnabled(s: State, i: nat, a: LoginStep) {
    match a
    case LoginRead(user) => CanLoginRead(s, i, user)
    case LoginIssue(_) => CanLoginIssue(s, i)
    case CreateLock => CanCreateLock(s, i)
    case CreateInsert(family) => CanCreateInsert(s, i, family)
    case CreateCommit => CanCreateCommit(s, i)
  }

  function LoginApply(s: State, i: nat, a: LoginStep): State
    requires LoginEnabled(s, i, a)
  {
    match a
    case LoginRead(user) => DoLoginRead(s, i, user)
    case LoginIssue(hash) => DoLoginIssue(s, i, hash)
    case CreateLock => DoCreateLock(s, i)
    case CreateInsert(family) => DoCreateInsert(s, i, family)
    case CreateCommit => DoCreateCommit(s, i)
  }

  predicate RefreshEnabled(s: State, i: nat, a: RefreshStep) {
    match a
    case RefreshBegin(_, _) => CanRefreshBegin(s, i)
    case RotateLookup => CanRotateLookup(s, i)
    case RotateLock => CanRotateLock(s, i)
    case RotateConsume => CanRotateConsume(s, i)
    case RotateInsert => CanRotateInsert(s, i)
    case RotateCommit => CanRotateCommit(s, i)
    case RotateInspect(at, familyAt) => CanRotateInspect(s, i, at, familyAt)
    case RotateRevoke => CanRotateRevoke(s, i)
    case ReuseCommit => CanReuseCommit(s, i)
  }

  function RefreshApply(s: State, i: nat, a: RefreshStep): State
    requires RefreshEnabled(s, i, a)
  {
    match a
    case RefreshBegin(presented, replacement) => DoRefreshBegin(s, i, presented, replacement)
    case RotateLookup => DoRotateLookup(s, i)
    case RotateLock => DoRotateLock(s, i)
    case RotateConsume => DoRotateConsume(s, i)
    case RotateInsert => DoRotateInsert(s, i)
    case RotateCommit => DoRotateCommit(s, i)
    case RotateInspect(at, familyAt) => DoRotateInspect(s, i, at, familyAt)
    case RotateRevoke => DoRotateRevoke(s, i)
    case ReuseCommit => DoReuseCommit(s, i)
  }

  predicate OwnerEnabled(s: State, i: nat, a: OwnerStep) {
    match a
    case Logout(hash) => CanLogout(s, i, hash)
    case ChangeLock(user, fields) => CanChangeLock(s, i, user, fields)
    case ChangeWrite => CanChangeWrite(s, i)
    case ChangeRevoke => CanChangeRevoke(s, i)
    case ChangeCommit => CanChangeCommit(s, i)
    case BulkLock(user) => CanBulkLock(s, i, user)
    case BulkRevoke => CanBulkRevoke(s, i)
    case BulkCommit => CanBulkCommit(s, i)
  }

  function OwnerApply(s: State, i: nat, a: OwnerStep): State
    requires OwnerEnabled(s, i, a)
  {
    match a
    case Logout(hash) => DoLogout(s, i, hash)
    case ChangeLock(user, fields) => DoChangeLock(s, i, user, fields)
    case ChangeWrite => DoChangeWrite(s, i)
    case ChangeRevoke => DoChangeRevoke(s, i)
    case ChangeCommit => DoChangeCommit(s, i)
    case BulkLock(user) => DoBulkLock(s, i, user)
    case BulkRevoke => DoBulkRevoke(s, i)
    case BulkCommit => DoBulkCommit(s, i)
  }

  predicate OtherEnabled(s: State, i: nat, a: OtherStep) {
    match a
    case SweepBegin => CanSweepBegin(s, i)
    case SweepRun => CanSweepRun(s, i)
    case Fail => CanFail(s, i)
    case Count => CanCount(s, i)
  }

  function OtherApply(s: State, i: nat, a: OtherStep): State
    requires OtherEnabled(s, i, a)
  {
    match a
    case SweepBegin => DoSweepBegin(s, i)
    case SweepRun => DoSweepRun(s, i)
    case Fail => DoFail(s, i)
    case Count => DoCount(s, i)
  }

  /** When a step can be taken: the call is at that statement and every lock it needs is free. */
  predicate Enabled(s: State, a: Action) {
    match a
    case Tick(to) => s.now <= to
    case OnUsers(u) => UserEnabled(s, u)
    case OnLogin(i, l) => LoginEnabled(s, i, l)
    case OnRefresh(i, r) => RefreshEnabled(s, i, r)
    case OnOwner(i, o) => OwnerEnabled(s, i, o)
    case OnOther(i, o) => OtherEnabled(s, i, o)
  }

  function Apply(s: State, a: Action): State
    requires Enabled(s, a)
  {
    match a
    case Tick(to) => s.(now := to)
    case OnUsers(u) => UserApply(s, u)
    case OnLogin(i, l) => LoginApply(s, i, l)
    case OnRefresh(i, r) => RefreshApply(s, i, r)
    case OnOwner(i, o) => OwnerApply(s, i, o)
    case OnOther(i, o) => OtherApply(s, i, o)
  }

  // ---------------------------------------------------------------- runs

  predicate StepAt(states: seq<State>, steps: seq<Action>, k: int)
    requires |states| == |steps| + 1 && 0 <= k < |steps|
  {
    Enabled(states[k], steps[k]) && states[k + 1] == Apply(states[k], steps[k])
  }

  /** `states` is the sequence of states that taking `steps` one after the other goes through. */
  predicate Run(states: seq<State>, steps: seq<Action>) {
    && |states| == |steps| + 1
    && forall k {:trigger StepAt(states, steps, k)} :: 0 <= k < |steps| ==> StepAt(states, steps, k)
  }

  /** A run that starts with empty tables. */
  predicate Behavior(states: seq<State>, steps: seq<Action>) {
    Run(states, steps) && Initial(states[0])
  }
}
