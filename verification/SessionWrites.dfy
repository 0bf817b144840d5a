/** What each commit does to the tables and to the calls still in progress. */
module SessionWrites {
  import opened Wrappers
  import opened SessionModel
  import opened SessionInvariant

  // ------------------------------------------------------------ a chain grows by one token

  function Extended(chain: Chains, f: FamilyId, h: TokenHash): Chains {
    chain[f := (if f in chain then chain[f] else []) + [h]]
  }

  /** `b` is the birth of a token that comes next on its chain. */
  ghost predicate NextOn(chain: Chains, b: Birth) {
    b.depth == if b.family in chain then |chain[b.family]| else 0
  }

  lemma GrowChains(births: Births, chain: Chains, h: TokenHash, b: Birth)
    requires ChainsOk(births, chain) && h !in births && NextOn(chain, b)
    ensures ChainsOk(births[h := b], Extended(chain, b.family, h))
  {
    var births', chain' := births[h := b], Extended(chain, b.family, h);
    forall g | g in births' ensures OnChain(births', chain', g) {
      if g != h { assert OnChain(births, chain, g); }
    }
    forall f, d: nat | f in chain' && d < |chain'[f]| ensures IsLink(births', chain', f, d) {
      if f in chain && d < |chain[f]| { assert IsLink(births, chain, f, d); }
    }
  }

  lemma GrowLineage(births: Births, chain: Chains, log: seq<Event>, h: TokenHash, b: Birth, e: Event)
    requires ChainsOk(births, chain) && LineageOk(births, chain, log) && h !in births && NextOn(chain, b)
    requires b.family in chain ==> |chain[b.family]| > 0
    requires var births', chain' := births[h := b], Extended(chain, b.family, h);
             OnChain(births', chain', h) && Descends(births', chain', log + [e], h)
    ensures LineageOk(births[h := b], Extended(chain, b.family, h), log + [e])
  {
    var births', chain', log' := births[h := b], Extended(chain, b.family, h), log + [e];
    forall g | g in births' ensures OnChain(births', chain', g) && Descends(births', chain', log', g) {
      if g != h {
        assert OnChain(births, chain, g);
        var f, d := births[g].family, births[g].depth;
        if d > 0 { assert IsLink(births, chain, f, d - 1); }
      }
    }
  }

  lemma GrowExpiry(births: Births, chain: Chains, h: TokenHash, b: Birth)
    requires ChainsOk(births, chain) && ExpiryOk(births) && h !in births && NextOn(chain, b)
    requires forall g :: g in births && births[g].family == b.family ==> births[g].expires <= b.expires
    ensures ExpiryOk(births[h := b])
  {
    forall g | g in births && births[g].family == b.family ensures births[g].depth < b.depth {
      assert OnChain(births, chain, g);
    }
  }

  /** A login or a rotation ends no session, so the new token only has to be younger than the ends. */
  lemma GrowLog(births: Births, tokens: Tokens, log: seq<Event>, h: TokenHash, b: Birth, e: Event)
    requires LogOk(births, log) && GrowthOk(births, log) && h !in births
    requires e.LoginStored? ||
             (e.TokenRotated? && e.replacement == h && b.parent == Some(e.presented) && b.user == e.user)
    requires b.born == |log|
    requires b.depth > 0 ==> forall k :: 0 <= k < |log| && EndsSessions(log[k], b.user) ==> k < b.login
    ensures LogOk(births[h := b], log + [e]) && GrowthOk(births[h := b], log + [e])
  {
    var log' := log + [e];
    assert forall k :: 0 <= k < |log| ==> log'[k] == log[k];
  }

  // ------------------------------------------------------------ a row is stored or revoked

  /** `b` records the birth of `row`. */
  ghost predicate Records(b: Birth, row: Row) {
    b.user == row.user && b.family == row.family && b.expires == row.expires
  }

  lemma StoreRow(users: Users, tokens: Tokens, births: Births, log: seq<Event>, h: TokenHash, row: Row, b: Birth,
                 e: Event)
    requires RowsOk(users, tokens, births) && CurrentOk(users, tokens, births) && EndedOk(tokens, births, log)
    requires h !in births && Records(b, row) && row.revokedAt.None? && row.reason.None?
    requires row.user in users && b.version == users[row.user].version
    requires forall k :: 0 <= k < |log| && EndsSessions(log[k], row.user) ==> k < b.login
    requires e.LoginStored? || e.TokenRotated?
    ensures RowsOk(users, tokens[h := row], births[h := b])
    ensures CurrentOk(users, tokens[h := row], births[h := b])
    ensures EndedOk(tokens[h := row], births[h := b], log + [e])
  {
    var log' := log + [e];
    assert forall k :: 0 <= k < |log| ==> log'[k] == log[k];
  }

  lemma StoreTail(tokens: Tokens, births: Births, chain: Chains, h: TokenHash, row: Row, b: Birth)
    requires ChainsOk(births, chain) && TailOk(tokens, births, chain) && h !in births && NextOn(chain, b)
    requires forall g :: g in tokens && births[g].family == b.family ==> tokens[g].reason == Some(Rotated)
    ensures TailOk(tokens[h := row], births[h := b], Extended(chain, b.family, h))
  {
    var tokens', births', chain' := tokens[h := row], births[h := b], Extended(chain, b.family, h);
    GrowChains(births, chain, h, b);
    forall g | g in tokens'
      ensures && g in births' && OnChain(births', chain', g)
              && (Newest(births', chain', g) || tokens'[g].reason == Some(Rotated))
    {
      if g != h { assert OnChain(births, chain, g); }
    }
  }

  lemma StoreSuffix(tokens: Tokens, births: Births, chain: Chains, h: TokenHash, row: Row, b: Birth)
    requires ChainsOk(births, chain) && SuffixOk(tokens, births) && h !in births && NextOn(chain, b)
    ensures SuffixOk(tokens[h := row], births[h := b])
  {
    forall g | g in births && births[g].family == b.family ensures births[g].depth < b.depth {
      assert OnChain(births, chain, g);
    }
  }

  lemma RevokeKeeps(users: Users, tokens: Tokens, births: Births, targets: set<TokenHash>, at: Time, reason: Reason,
                    log: seq<Event>)
    requires RowsOk(users, tokens, births) && CurrentOk(users, tokens, births)
    requires SuffixOk(tokens, births) && EndedOk(tokens, births, log)
    ensures var tokens' := RevokeRows(tokens, targets, at, reason);
            && RowsOk(users, tokens', births) && CurrentOk(users, tokens', births)
            && SuffixOk(tokens', births) && EndedOk(tokens', births, log)
  {
  }

  lemma RevokeTail(users: Users, tokens: Tokens, births: Births, chain: Chains, targets: set<TokenHash>, at: Time,
                   reason: Reason)
    requires RowsOk(users, tokens, births) && TailOk(tokens, births, chain)
    requires reason == Rotated || forall h :: h in targets && h in tokens ==> Active(tokens[h])
    ensures TailOk(RevokeRows(tokens, targets, at, reason), births, chain)
  {
  }

  // ------------------------------------------------------------ Create commits

  function CreatedBirth(s: State, x: Session, f: FamilyId): Birth {
    Birth(x.user, f, x.expires, 0, None, |s.log|, |s.log|, x.password, x.version)
  }

  lemma CreateHistory(s: State, i: nat)
    requires CanCreateCommit(s, i) && CallOk(s, s.calls[i]) && HistoryOk(s.births, s.chain, s.log)
    ensures var t := DoCreateCommit(s, i); HistoryOk(t.births, t.chain, t.log)
  {
    var x, f := s.calls[i].session, s.calls[i].family;
    var b, e := CreatedBirth(s, x, f), LoginStored(x.user, x.hash, f, x.password);
    assert [] + [x.hash] == [x.hash];
    GrowChains(s.births, s.chain, x.hash, b);
    GrowLineage(s.births, s.chain, s.log, x.hash, b, e);
    forall g | g in s.births ensures s.births[g].family != f {
      assert OnChain(s.births, s.chain, g);
    }
    GrowExpiry(s.births, s.chain, x.hash, b);
    GrowLog(s.births, s.tokens, s.log, x.hash, b, e);
  }

  lemma CreateRows(s: State, i: nat)
    requires CanCreateCommit(s, i) && CallOk(s, s.calls[i])
    requires RowsOk(s.users, s.tokens, s.births) && CurrentOk(s.users, s.tokens, s.births)
             && EndedOk(s.tokens, s.births, s.log)
    ensures var t := DoCreateCommit(s, i);
            && RowsOk(t.users, t.tokens, t.births) && CurrentOk(t.users, t.tokens, t.births)
            && EndedOk(t.tokens, t.births, t.log)
  {
    var x, f := s.calls[i].session, s.calls[i].family;
    StoreRow(s.users, s.tokens, s.births, s.log, x.hash, Row(x.user, f, x.expires, None, None),
             CreatedBirth(s, x, f), LoginStored(x.user, x.hash, f, x.password));
  }

  lemma CreateTail(s: State, i: nat)
    requires CanCreateCommit(s, i) && CallOk(s, s.calls[i])
    requires ChainsOk(s.births, s.chain) && TailOk(s.tokens, s.births, s.chain) && SuffixOk(s.tokens, s.births)
    ensures var t := DoCreateCommit(s, i); TailOk(t.tokens, t.births, t.chain) && SuffixOk(t.tokens, t.births)
  {
    var x, f := s.calls[i].session, s.calls[i].family;
    var b, row := CreatedBirth(s, x, f), Row(x.user, f, x.expires, None, None);
    assert [] + [x.hash] == [x.hash];
    forall g | g in s.births ensures s.births[g].family != f {
      assert OnChain(s.births, s.chain, g);
    }
    StoreTail(s.tokens, s.births, s.chain, x.hash, row, b);
    StoreSuffix(s.tokens, s.births, s.chain, x.hash, row, b);
  }

  lemma CreateStored(s: State, i: nat)
    requires CanCreateCommit(s, i) && CallOk(s, s.calls[i])
    requires ChainsOk(s.births, s.chain) && StoredOk(s.users, s.tokens, s.births, s.chain, s.log)
    ensures var t := DoCreateCommit(s, i); StoredOk(t.users, t.tokens, t.births, t.chain, t.log)
  {
    CreateRows(s, i);
    CreateTail(s, i);
  }

  lemma CreatePace(s: State, i: nat)
    requires CanCreateCommit(s, i) && CallOk(s, s.calls[i]) && PaceOk(s)
    ensures PaceOk(DoCreateCommit(s, i))
  {
  }

  lemma CreateTables(s: State, i: nat)
    requires TablesOk(s) && CanCreateCommit(s, i) && CallOk(s, s.calls[i])
    ensures TablesOk(DoCreateCommit(s, i))
  {
    CreateHistory(s, i);
    CreateStored(s, i);
    CreatePace(s, i);
  }

  lemma CreateCall(s: State, i: nat, c: Call)
    requires CanCreateCommit(s, i) && CallOk(s, s.calls[i]) && CallOk(s, c)
    requires RowsOk(s.users, s.tokens, s.births)
    requires Apart(s.calls[i], c) && Apart(c, s.calls[i])
    ensures CallOk(DoCreateCommit(s, i), c)
  {
    var t, x := DoCreateCommit(s, i), s.calls[i].session;
    assert x.hash !in s.tokens;
    forall u | u != x.user ensures ActiveOf(t.tokens, u) == ActiveOf(s.tokens, u) {
    }
  }

  lemma CreateCalls(s: State, i: nat)
    requires CallsOk(s) && CanCreateCommit(s, i) && RowsOk(s.users, s.tokens, s.births)
    ensures CallsOk(DoCreateCommit(s, i))
  {
    var t := DoCreateCommit(s, i);
    forall j | 0 <= j < |t.calls| ensures CallOk(t, t.calls[j]) {
      if j != i {
        assert CallOk(s, s.calls[i]) && CallOk(s, s.calls[j]);
        assert Apart(s.calls[i], s.calls[j]) && Apart(s.calls[j], s.calls[i]);
        CreateCall(s, i, s.calls[j]);
      }
    }
  }

  // ------------------------------------------------------------ Rotate commits

  function RotatedBirth(s: State, x: Exchange, owner: UserId, f: FamilyId, parent: Birth): Birth {
    Birth(owner, f, x.expires, parent.depth + 1, Some(x.presented), parent.login, |s.log|, parent.password,
          parent.version)
  }

  /** Call `i` is about to store the successor of the newest token of its chain. */
  ghost predicate AtTip(s: State, i: nat) {
    && CanRotateCommit(s, i) && CallOk(s, s.calls[i])
    && OnChain(s.births, s.chain, s.calls[i].x.presented)
    && Newest(s.births, s.chain, s.calls[i].x.presented)
  }

  /** The consumed token is still stored and is the newest of its chain, so the commit cannot miss it. */
  lemma ConsumedIsNewest(s: State, i: nat)
    requires At(s, i) && s.calls[i].RotateInserted? && CallOk(s, s.calls[i])
    requires RowsOk(s.users, s.tokens, s.births) && TailOk(s.tokens, s.births, s.chain)
    ensures AtTip(s, i)
  {
  }

  lemma RotateChains(s: State, i: nat)
    requires AtTip(s, i) && ChainsOk(s.births, s.chain) && LineageOk(s.births, s.chain, s.log)
    requires s.births[s.calls[i].x.presented].family == s.calls[i].family
    ensures var t := DoRotateCommit(s, i); ChainsOk(t.births, t.chain) && LineageOk(t.births, t.chain, t.log)
  {
    var x, f, owner := s.calls[i].x, s.calls[i].family, s.calls[i].owner;
    var b := RotatedBirth(s, x, owner, f, s.births[x.presented]);
    GrowChains(s.births, s.chain, x.replacement, b);
    GrowLineage(s.births, s.chain, s.log, x.replacement, b, TokenRotated(owner, x.presented, x.replacement));
  }

  lemma RotateExpiry(s: State, i: nat)
    requires AtTip(s, i) && ChainsOk(s.births, s.chain) && ExpiryOk(s.births)
    requires s.births[s.calls[i].x.presented].family == s.calls[i].family
    ensures ExpiryOk(DoRotateCommit(s, i).births)
  {
    var x, f, owner := s.calls[i].x, s.calls[i].family, s.calls[i].owner;
    var b := RotatedBirth(s, x, owner, f, s.births[x.presented]);
    forall g | g in s.births && s.births[g].family == f ensures s.births[g].expires <= b.expires {
      assert OnChain(s.births, s.chain, g);
    }
    GrowExpiry(s.births, s.chain, x.replacement, b);
  }

  lemma RotateLog(s: State, i: nat)
    requires CanRotateCommit(s, i) && CallOk(s, s.calls[i])
    requires EndedOk(s.tokens, s.births, s.log) && LogOk(s.births, s.log) && GrowthOk(s.births, s.log)
    ensures var t := DoRotateCommit(s, i); LogOk(t.births, t.log) && GrowthOk(t.births, t.log)
  {
    var x, f, owner := s.calls[i].x, s.calls[i].family, s.calls[i].owner;
    GrowLog(s.births, s.tokens, s.log, x.replacement, RotatedBirth(s, x, owner, f, s.births[x.presented]),
            TokenRotated(owner, x.presented, x.replacement));
  }

  /** The table after the consume and before the insert. */
  function Spent(s: State, i: nat): Tokens
    requires CanRotateCommit(s, i)
  {
    RevokeRows(s.tokens, {s.calls[i].x.presented}, s.now, Rotated)
  }

  lemma SpentRows(s: State, i: nat)
    requires CanRotateCommit(s, i)
    ensures var p := s.calls[i].x.presented;
            Spent(s, i) == s.tokens[p := RevokedRow(s.tokens[p], s.now, Rotated)]
  {
  }

  lemma RotateRows(s: State, i: nat)
    requires CanRotateCommit(s, i) && CallOk(s, s.calls[i])
    requires RowsOk(s.users, s.tokens, s.births) && CurrentOk(s.users, s.tokens, s.births)
    requires SuffixOk(s.tokens, s.births) && EndedOk(s.tokens, s.births, s.log)
    ensures var t := DoRotateCommit(s, i);
            && RowsOk(t.users, t.tokens, t.births) && CurrentOk(t.users, t.tokens, t.births)
            && EndedOk(t.tokens, t.births, t.log)
  {
    var x, f, owner := s.calls[i].x, s.calls[i].family, s.calls[i].owner;
    SpentRows(s, i);
    RevokeKeeps(s.users, s.tokens, s.births, {x.presented}, s.now, Rotated, s.log);
    StoreRow(s.users, Spent(s, i), s.births, s.log, x.replacement, Row(owner, f, x.expires, None, None),
             RotatedBirth(s, x, owner, f, s.births[x.presented]), TokenRotated(owner, x.presented, x.replacement));
  }

  /** Every other row of the family was already rotated. */
  lemma SpentFamily(s: State, i: nat)
    requires AtTip(s, i) && ChainsOk(s.births, s.chain) && TailOk(s.tokens, s.births, s.chain)
    requires s.births[s.calls[i].x.presented].family == s.calls[i].family
    ensures forall g :: g in s.tokens && s.births[g].family == s.calls[i].family ==>
              Spent(s, i)[g].reason == Some(Rotated)
  {
    forall g | g in s.tokens && s.births[g].family == s.calls[i].family ensures Spent(s, i)[g].reason == Some(Rotated) {
      assert OnChain(s.births, s.chain, g);
    }
  }

  lemma RotateTail(s: State, i: nat)
    requires AtTip(s, i) && ChainsOk(s.births, s.chain) && RowsOk(s.users, s.tokens, s.births)
    requires TailOk(s.tokens, s.births, s.chain)
    ensures var t := DoRotateCommit(s, i); TailOk(t.tokens, t.births, t.chain)
  {
    var x, f, owner := s.calls[i].x, s.calls[i].family, s.calls[i].owner;
    SpentRows(s, i);
    RevokeTail(s.users, s.tokens, s.births, s.chain, {x.presented}, s.now, Rotated);
    SpentFamily(s, i);
    StoreTail(Spent(s, i), s.births, s.chain, x.replacement, Row(owner, f, x.expires, None, None),
              RotatedBirth(s, x, owner, f, s.births[x.presented]));
  }

  lemma RotateSuffix(s: State, i: nat)
    requires AtTip(s, i) && ChainsOk(s.births, s.chain) && RowsOk(s.users, s.tokens, s.births)
    requires SuffixOk(s.tokens, s.births)
    ensures var t := DoRotateCommit(s, i); SuffixOk(t.tokens, t.births)
  {
    var x, f, owner := s.calls[i].x, s.calls[i].family, s.calls[i].owner;
    SpentRows(s, i);
    StoreSuffix(Spent(s, i), s.births, s.chain, x.replacement, Row(owner, f, x.expires, None, None),
                RotatedBirth(s, x, owner, f, s.births[x.presented]));
  }

  lemma RotateHistory(s: State, i: nat)
    requires AtTip(s, i) && HistoryOk(s.births, s.chain, s.log) && StoredOk(s.users, s.tokens, s.births, s.chain, s.log)
    ensures var t := DoRotateCommit(s, i); HistoryOk(t.births, t.chain, t.log)
  {
    RotateChains(s, i);
    RotateExpiry(s, i);
    RotateLog(s, i);
  }

  lemma RotateStored(s: State, i: nat)
    requires AtTip(s, i) && ChainsOk(s.births, s.chain) && StoredOk(s.users, s.tokens, s.births, s.chain, s.log)
    ensures var t := DoRotateCommit(s, i); StoredOk(t.users, t.tokens, t.births, t.chain, t.log)
  {
    RotateRows(s, i);
    RotateTail(s, i);
    RotateSuffix(s, i);
  }

  lemma RotatePace(s: State, i: nat)
    requires CanRotateCommit(s, i) && CallOk(s, s.calls[i]) && PaceOk(s)
    ensures PaceOk(DoRotateCommit(s, i))
  {
  }

  lemma RotateTables(s: State, i: nat)
    requires TablesOk(s) && CanRotateCommit(s, i) && CallOk(s, s.calls[i])
    ensures TablesOk(DoRotateCommit(s, i))
  {
    ConsumedIsNewest(s, i);
    RotateHistory(s, i);
    RotateStored(s, i);
    RotatePace(s, i);
  }

  lemma RotateCall(s: State, i: nat, c: Call)
    requires CanRotateCommit(s, i) && CallOk(s, s.calls[i]) && CallOk(s, c)
    requires RowsOk(s.users, s.tokens, s.births)
    requires Apart(s.calls[i], c) && Apart(c, s.calls[i])
    ensures CallOk(DoRotateCommit(s, i), c)
  {
    var t, x, owner := DoRotateCommit(s, i), s.calls[i].x, s.calls[i].owner;
    assert x.replacement !in s.tokens;
    forall u | u != owner ensures ActiveOf(t.tokens, u) == ActiveOf(s.tokens, u) {
    }
  }

  lemma RotateCalls(s: State, i: nat)
    requires CallsOk(s) && CanRotateCommit(s, i) && RowsOk(s.users, s.tokens, s.births)
    ensures CallsOk(DoRotateCommit(s, i))
  {
    var t := DoRotateCommit(s, i);
    forall j | 0 <= j < |t.calls| ensures CallOk(t, t.calls[j]) {
      if j != i {
        assert CallOk(s, s.calls[i]) && CallOk(s, s.calls[j]);
        assert Apart(s.calls[i], s.calls[j]) && Apart(s.calls[j], s.calls[i]);
        RotateCall(s, i, s.calls[j]);
      }
    }
  }
}
