/** What a refused or replayed refresh does: classification, reuse, dead chains, atomicity, cleanup. */
module SessionReuse {
  import opened Wrappers
  import opened SessionModel
  import opened SessionInvariant
  import opened SessionWrites
  import opened SessionEnds
  import opened SessionSafety
  import opened SessionTheorems

  // ------------------------------------------------------------ the decision table

  /** The table of section "Refresh token reuse" of the README, row by row, at one instant. A revoked
      row without a reason (stored before reasons existed) is a plain revocation. */
  ghost predicate TableSays(tokens: Tokens, h: TokenHash, at: Time, v: Verdict) {
    match v
    case Reuse => h in tokens && tokens[h].reason == Some(Rotated) && FamilyLive(tokens, tokens[h].family, at)
    case Revoked =>
      && h in tokens && !Active(tokens[h])
      && (tokens[h].reason == Some(Rotated) ==> !FamilyLive(tokens, tokens[h].family, at))
    case Expired => h in tokens && Active(tokens[h]) && tokens[h].expires <= at
    case Unknown => h !in tokens
    case NotUsable => false
  }

  /** All that can happen to row `h` while its owner's lock is held by a call that writes nothing: a
      logout revokes it, a sweep deletes it. */
  ghost predicate OnlyEnds(before: Tokens, after: Tokens, h: TokenHash) {
    h in after && Active(after[h]) ==> h in before && Active(before[h]) && before[h].expires == after[h].expires
  }

  /** For any two tables and any three ordered clock readings: after a consume that matched nothing,
      the code answers what the table says at the last reading, the table says nothing else, and the
      catch-all branch is not taken. */
  lemma FailedConsumeMatchesTable(before: Tokens, after: Tokens, h: TokenHash, consumeAt: Time, at: Time,
                                  familyAt: Time, v: Verdict)
    requires consumeAt <= at <= familyAt
    requires !(h in before && Live(before[h], consumeAt))
    requires OnlyEnds(before, after, h)
    requires h in after && after[h].reason.Some? ==> !Active(after[h])
    ensures TableSays(after, h, familyAt, v) <==> v == Classify(after, h, at, familyAt)
    ensures Classify(after, h, at, familyAt) != NotUsable
  {
  }

  lemma MissedRow(s: State, i: nat)
    requires At(s, i) && s.calls[i].RotateMissed? && CallOk(s, s.calls[i]) && RowsOk(s.users, s.tokens, s.births)
    ensures var c := s.calls[i];
            && c.missedAt <= s.now
            && !(c.presented in s.tokens && Live(s.tokens[c.presented], c.missedAt))
            && (c.presented in s.tokens && s.tokens[c.presented].reason.Some? ==> !Active(s.tokens[c.presented]))
  {
  }

  /** The same for every run: the inspecting statement of a refresh answers what the table says. */
  lemma InspectMatchesTable(states: seq<State>, steps: seq<Action>, k: nat, i: nat, at: Time, familyAt: Time,
                            v: Verdict)
    requires Behavior(states, steps) && k < |states|
    requires CanRotateInspect(states[k], i, at, familyAt)
    ensures var s := states[k];
            var p := s.calls[i].presented;
            && (TableSays(s.tokens, p, familyAt, v) <==> v == Classify(s.tokens, p, at, familyAt))
            && Classify(s.tokens, p, at, familyAt) != NotUsable
  {
    ReachableInv(states, steps, k);
    var s := states[k];
    MissedRow(s, i);
    FailedConsumeMatchesTable(s.tokens, s.tokens, s.calls[i].presented, s.calls[i].missedAt, at, familyAt, v);
  }

  // ------------------------------------------------------------ reuse ends everything

  /** The rows whose reason a step set to `reason`. */
  ghost function Moved(before: Tokens, after: Tokens, reason: Reason): set<TokenHash> {
    set h | h in before && h in after && before[h].reason != Some(reason) && after[h].reason == Some(reason)
  }

  /** The commit of a detected reuse leaves its user without an unrevoked token, touches nobody
      else's rows, and counts exactly the rows it revoked. */
  lemma ReuseEndsEverything(states: seq<State>, steps: seq<Action>, k: nat, i: nat)
    requires Behavior(states, steps) && k < |steps| && steps[k] == OnRefresh(i, ReuseCommit)
    ensures StepAt(states, steps, k)
    ensures var s, t, u := states[k], states[k + 1], states[k].calls[i].owner;
            && ActiveOf(t.tokens, u) == {}
            && t.users == s.users && t.tokens.Keys == s.tokens.Keys
            && (forall h :: h in s.tokens && s.tokens[h].user != u ==> t.tokens[h] == s.tokens[h])
            && t.calls[i] == Counting(ReuseSessions, |Moved(s.tokens, t.tokens, Reused)|)
            && t.log == s.log + [ReuseEnded(u, s.calls[i].presented, Moved(s.tokens, t.tokens, Reused))]
  {
    ReachableInv(states, steps, k);
    assert StepAt(states, steps, k);
    ReuseCommitEnds(states[k], i);
  }

  lemma ReuseCommitEnds(s: State, i: nat)
    requires CanReuseCommit(s, i) && CallsOk(s) && RowsOk(s.users, s.tokens, s.births)
    ensures var t, u := DoReuseCommit(s, i), s.calls[i].owner;
            && ActiveOf(t.tokens, u) == {}
            && t.users == s.users && t.tokens.Keys == s.tokens.Keys
            && (forall h :: h in s.tokens && s.tokens[h].user != u ==> t.tokens[h] == s.tokens[h])
            && t.calls[i] == Counting(ReuseSessions, |Moved(s.tokens, t.tokens, Reused)|)
            && t.log == s.log + [ReuseEnded(u, s.calls[i].presented, Moved(s.tokens, t.tokens, Reused))]
  {
    assert CallOk(s, s.calls[i]);
    NoneActive(s.tokens, s.calls[i].owner, s.now, Reused);
    assert Moved(s.tokens, DoReuseCommit(s, i).tokens, Reused) == s.calls[i].targets;
  }

  /** After an event that ended a user's sessions, every exchange that succeeds for that user is of
      a chain whose login was stored later. */
  lemma LaterRefreshNeedsLaterLogin(states: seq<State>, steps: seq<Action>, k: nat, end: nat, rotation: nat)
    requires Behavior(states, steps) && k < |states| && end < rotation < |states[k].log|
    requires states[k].log[rotation].TokenRotated? && EndsSessions(states[k].log[end], states[k].log[rotation].user)
    ensures var s := states[k];
            var r := s.log[rotation].replacement;
            && r in s.births && end < s.births[r].login < |s.log|
            && s.log[s.births[r].login].LoginStored?
            && s.log[s.births[r].login].user == s.log[rotation].user
            && DescendsByRotation(s, r)
  {
    ReachableInv(states, steps, k);
    var s := states[k];
    var r := s.log[rotation].replacement;
    assert OnChain(s.births, s.chain, r);
    EveryTokenDescends(s, r);
  }

  // ------------------------------------------------------------ rotation is atomic

  /** A refresh writes at its commit or not at all, and it commits only a success or a reuse. */
  lemma RefreshWritesAtCommit(s: State, i: nat, a: RefreshStep)
    requires RefreshEnabled(s, i, a) && a != RotateCommit && a != ReuseCommit
    ensures RefreshApply(s, i, a).users == s.users && RefreshApply(s, i, a).tokens == s.tokens
  {
    match a
    case RefreshBegin(presented, replacement) =>
    case RotateLookup => if s.calls[i].x.presented in s.tokens {} else {}
    case RotateLock => if s.calls[i].owner in s.users {} else {}
    case RotateConsume => assert DoRotateConsume(s, i).tokens == s.tokens;
    case RotateInsert => assert DoRotateInsert(s, i).tokens == s.tokens;
    case RotateInspect(at, familyAt) => InspectWritesNothing(s, i, at, familyAt);
    case RotateRevoke =>
  }

  lemma InspectWritesNothing(s: State, i: nat, at: Time, familyAt: Time)
    requires CanRotateInspect(s, i, at, familyAt)
    ensures DoRotateInspect(s, i, at, familyAt).users == s.users
            && DoRotateInspect(s, i, at, familyAt).tokens == s.tokens
  {
    if Classify(s.tokens, s.calls[i].presented, at, familyAt) == Reuse {} else {}
  }

  /** After a consume the INSERT ... SELECT finds its source row, whatever cleanup, logout and user
      deletion did meanwhile, and so does the commit. */
  lemma InsertFindsItsSource(states: seq<State>, steps: seq<Action>, k: nat, i: nat)
    requires Behavior(states, steps) && k < |states| && At(states[k], i)
    ensures var s := states[k];
            && (s.calls[i].RotateConsumed? ==>
                  && s.calls[i].x.presented in s.tokens && Active(s.tokens[s.calls[i].x.presented])
                  && s.calls[i].owner in s.users && s.tokens[s.calls[i].x.presented].user == s.calls[i].owner)
            && (s.calls[i].RotateInserted? ==> CanRotateCommit(s, i))
  {
    ReachableInv(states, steps, k);
    var s := states[k];
    assert CallOk(s, s.calls[i]);
    if s.calls[i].RotateInserted? { ConsumedIsNewest(s, i); }
  }

  /** Some hash nobody has drawn or presented. */
  lemma {:induction false} AnUnseenHash(seen: set<TokenHash>) returns (h: TokenHash)
    ensures (forall g :: g in seen ==> g < h) && h !in seen
  {
    if seen == {} {
      h := 0;
    } else {
      var g :| g in seen;
      var h' := AnUnseenHash(seen - {g});
      h := if g < h' then h' else g + 1;
      assert forall x :: x in seen ==> x == g || x in seen - {g};
    }
  }

  lemma RunThen(run: seq<State>, steps: seq<Action>, a: Action)
    requires Run(run, steps) && Enabled(run[|steps|], a)
    ensures Run(run + [Apply(run[|steps|], a)], steps + [a])
  {
    var more, later := run + [Apply(run[|steps|], a)], steps + [a];
    forall k | 0 <= k < |later| ensures StepAt(more, later, k) {
      if k < |steps| { assert StepAt(run, steps, k); }
    }
  }

  /** The statements of a refresh up to the lock of the owner's row. */
  function LockSteps(i: nat, presented: TokenHash, replacement: TokenHash): seq<Action> {
    [OnRefresh(i, RefreshBegin(presented, replacement)), OnRefresh(i, RotateLookup), OnRefresh(i, RotateLock)]
  }

  /** An idle caller `i` can present the stored token `p` and is not kept from locking its owner. */
  ghost predicate Presentable(s: State, i: nat, p: TokenHash) {
    && At(s, i) && s.calls[i].Idle? && p in s.tokens && s.tokens[p].user in s.users
    && NoExclusive(s, i, s.tokens[p].user) && NoShared(s, i, s.tokens[p].user)
  }

  /** The state with the owner's row locked. */
  ghost function UpToLock(s: State, i: nat, p: TokenHash, r: TokenHash): State
    requires Presentable(s, i, p)
  {
    Goto(s, i, RotateLocked(Exchange(p, r, s.now + s.cfg.ttl, r !in s.seen && r != p), s.tokens[p].user))
      .(seen := s.seen + {p, r})
  }

  lemma LockRun(s: State, i: nat, p: TokenHash, r: TokenHash) returns (run: seq<State>)
    requires Presentable(s, i, p)
    ensures Run(run, LockSteps(i, p, r)) && run[0] == s && run[3] == UpToLock(s, i, p, r)
  {
    var x, begun := Exchange(p, r, s.now + s.cfg.ttl, r !in s.seen && r != p), s.(seen := s.seen + {p, r});
    run := [s, Goto(begun, i, RefreshBegun(x)), Goto(begun, i, RotateFound(x, s.tokens[p].user)), UpToLock(s, i, p, r)];
    forall k | 0 <= k < 3 ensures StepAt(run, LockSteps(i, p, r), k) {
      if k == 0 { assert DoRefreshBegin(s, i, p, r) == run[1]; }
      else if k == 1 { assert DoRotateLookup(run[1], i) == run[2]; }
      else { assert CanRotateLock(run[2], i) && DoRotateLock(run[2], i) == run[3]; }
    }
  }

  function ExchangeSteps(i: nat, presented: TokenHash, replacement: TokenHash): seq<Action> {
    LockSteps(i, presented, replacement)
    + [OnRefresh(i, RotateConsume)] + [OnRefresh(i, RotateInsert)] + [OnRefresh(i, RotateCommit)]
  }

  /** An idle caller `i` finds `p` live and nobody in the way. */
  ghost predicate Exchangeable(s: State, i: nat, p: TokenHash, r: TokenHash) {
    && Presentable(s, i, p) && Live(s.tokens[p], s.now) && RowFree(s, i, p)
    && p in s.births && s.tokens[p].family in s.chain
    && r !in s.seen && r != p && r !in s.tokens
  }

  /** The state after the statements of an exchange up to its INSERT. */
  ghost function UpToInsert(s: State, i: nat, p: TokenHash, r: TokenHash): State
    requires Exchangeable(s, i, p, r)
  {
    Goto(s, i, RotateInserted(Exchange(p, r, s.now + s.cfg.ttl, true), s.tokens[p].user, s.tokens[p].family))
      .(seen := s.seen + {p, r})
  }

  lemma ConsumeStep(s: State, i: nat, p: TokenHash, r: TokenHash)
    requires Exchangeable(s, i, p, r)
    ensures var t := UpToLock(s, i, p, r);
            && CanRotateConsume(t, i)
            && DoRotateConsume(t, i) == Goto(t, i, RotateConsumed(t.calls[i].x, s.tokens[p].user))
  {
  }

  lemma InsertStep(s: State, i: nat, p: TokenHash, r: TokenHash)
    requires Exchangeable(s, i, p, r)
    ensures var lock := UpToLock(s, i, p, r);
            var t := Goto(lock, i, RotateConsumed(lock.calls[i].x, s.tokens[p].user));
            CanRotateInsert(t, i) && DoRotateInsert(t, i) == UpToInsert(s, i, p, r)
  {
  }

  lemma ExchangeStatements(s: State, i: nat, p: TokenHash, r: TokenHash) returns (run: seq<State>)
    requires Exchangeable(s, i, p, r)
    ensures Run(run, LockSteps(i, p, r) + [OnRefresh(i, RotateConsume)] + [OnRefresh(i, RotateInsert)])
    ensures run[0] == s && run[5] == UpToInsert(s, i, p, r)
  {
    var lock := LockSteps(i, p, r);
    var locked := LockRun(s, i, p, r);
    ConsumeStep(s, i, p, r);
    RunThen(locked, lock, OnRefresh(i, RotateConsume));
    var consumed := locked + [DoRotateConsume(locked[3], i)];
    InsertStep(s, i, p, r);
    RunThen(consumed, lock + [OnRefresh(i, RotateConsume)], OnRefresh(i, RotateInsert));
    run := consumed + [DoRotateInsert(consumed[4], i)];
  }

  /** The state after the whole exchange. */
  ghost function AfterExchange(s: State, i: nat, p: TokenHash, r: TokenHash): State
    requires Exchangeable(s, i, p, r)
  {
    DoRotateCommit(UpToInsert(s, i, p, r), i)
  }

  lemma ExchangeRun(s: State, i: nat, p: TokenHash, r: TokenHash) returns (run: seq<State>)
    requires Exchangeable(s, i, p, r)
    ensures Run(run, ExchangeSteps(i, p, r)) && run[0] == s && run[6] == AfterExchange(s, i, p, r)
    ensures run[6].log == s.log + [TokenRotated(s.tokens[p].user, p, r)]
    ensures r in run[6].tokens && Active(run[6].tokens[r]) && run[6].tokens[r].family == s.tokens[p].family
  {
    var inserted := ExchangeStatements(s, i, p, r);
    RunThen(inserted, LockSteps(i, p, r) + [OnRefresh(i, RotateConsume)] + [OnRefresh(i, RotateInsert)],
            OnRefresh(i, RotateCommit));
    run := inserted + [DoRotateCommit(inserted[5], i)];
  }

  lemma SomeReplacement(s: State, i: nat, p: TokenHash) returns (r: TokenHash)
    requires TablesOk(s) && At(s, i) && s.calls[i].Idle?
    requires p in s.tokens && Live(s.tokens[p], s.now)
    requires NoExclusive(s, i, s.tokens[p].user) && NoShared(s, i, s.tokens[p].user) && RowFree(s, i, p)
    ensures Exchangeable(s, i, p, r)
  {
    r := AnUnseenHash(s.seen + {p});
    assert OnChain(s.births, s.chain, p);
  }

  /** A live token whose owner's row is not locked can be exchanged by an idle caller. */
  lemma LiveTokenCanBeExchanged(s: State, i: nat, p: TokenHash) returns (run: seq<State>, r: TokenHash)
    requires TablesOk(s) && At(s, i) && s.calls[i].Idle?
    requires p in s.tokens && Live(s.tokens[p], s.now)
    requires NoExclusive(s, i, s.tokens[p].user) && NoShared(s, i, s.tokens[p].user) && RowFree(s, i, p)
    ensures Run(run, ExchangeSteps(i, p, r)) && run[0] == s
    ensures run[6].log == s.log + [TokenRotated(s.tokens[p].user, p, r)]
    ensures r in run[6].tokens && Active(run[6].tokens[r]) && run[6].tokens[r].family == s.tokens[p].family
  {
    r := SomeReplacement(s, i, p);
    run := ExchangeRun(s, i, p, r);
  }

  /** Nobody else waits inside the lock of a call that has consumed a token. */
  lemma UnlockedAfterRotate(s: State, i: nat)
    requires CallsOk(s) && At(s, i) && s.calls[i].RotateConsumed?
    ensures var p, owner := s.calls[i].x.presented, s.calls[i].owner;
            NoExclusive(s, i, owner) && NoShared(s, i, owner) && RowFree(s, i, p)
  {
    var p, owner := s.calls[i].x.presented, s.calls[i].owner;
    assert CallOk(s, s.calls[i]);
    forall j | 0 <= j < |s.calls| && j != i
      ensures ExclusiveOn(s.calls[j]) != Some(owner) && SharedOn(s.calls[j]) != Some(owner) && !LocksRow(s.calls[j], p)
    {
      assert Apart(s.calls[i], s.calls[j]) && CallOk(s, s.calls[j]);
    }
  }

  lemma RollbackTables(s: State, i: nat)
    requires TablesOk(s) && At(s, i)
    ensures TablesOk(Goto(s, i, Idle))
  {
    SameTablesOk(s, Goto(s, i, Idle));
  }

  lemma CollisionRollsBack(s: State, i: nat)
    requires CanRotateInsert(s, i) && CallOk(s, s.calls[i]) && s.calls[i].x.replacement in s.tokens
    ensures DoRotateInsert(s, i) == Goto(s, i, Idle)
    ensures s.calls[i].x.presented in s.tokens && Active(s.tokens[s.calls[i].x.presented])
    ensures s.tokens[s.calls[i].x.presented].user == s.calls[i].owner
  {
  }

  lemma RetryAfterRollback(s: State, i: nat, p: TokenHash) returns (run: seq<State>, r: TokenHash)
    requires TablesOk(s) && At(s, i) && p in s.tokens && Live(s.tokens[p], s.now)
    requires NoExclusive(s, i, s.tokens[p].user) && NoShared(s, i, s.tokens[p].user) && RowFree(s, i, p)
    ensures Run(run, ExchangeSteps(i, p, r)) && run[0] == Goto(s, i, Idle)
    ensures run[6].log == s.log + [TokenRotated(s.tokens[p].user, p, r)]
  {
    RollbackTables(s, i);
    run, r := LiveTokenCanBeExchanged(Goto(s, i, Idle), i, p);
  }

  /** A replacement that collides with a stored hash ends the call without a write, and the presented
      token can be exchanged again while it lasts. */
  lemma CollisionLeavesTokenUsable(states: seq<State>, steps: seq<Action>, k: nat, i: nat)
      returns (run: seq<State>, r: TokenHash)
    requires Behavior(states, steps) && k < |states| && CanRotateInsert(states[k], i)
    requires states[k].calls[i].x.replacement in states[k].tokens
    ensures var s, p := states[k], states[k].calls[i].x.presented;
            var t := DoRotateInsert(s, i);
            && t == Goto(s, i, Idle)
            && p in t.tokens && Active(t.tokens[p])
            && (Live(t.tokens[p], t.now) ==>
                  && Run(run, ExchangeSteps(i, p, r)) && run[0] == t
                  && run[6].log == t.log + [TokenRotated(t.tokens[p].user, p, r)])
  {
    ReachableInv(states, steps, k);
    var s, p := states[k], states[k].calls[i].x.presented;
    CollisionRollsBack(s, i);
    UnlockedAfterRotate(s, i);
    run, r := [], 0;
    if Live(s.tokens[p], s.now) {
      run, r := RetryAfterRollback(s, i, p);
    }
  }

  // ------------------------------------------------------------ cleanup within retention

  lemma SweptRow(s: State, i: nat, h: TokenHash)
    requires CanSweepRun(s, i) && CallOk(s, s.calls[i]) && s.cfg.Valid() && h in s.tokens
    ensures var t := DoSweepRun(s, i);
            && (s.tokens[h].expires >= s.now - s.cfg.retention ==> h in t.tokens)
            && (Live(s.tokens[h], s.now) ==> h in t.tokens)
            && (h in t.tokens ==> t.tokens[h] == s.tokens[h])
  {
  }

  /** A sweep deletes no live row, and no row within retention of its expiry, and changes no row it
      keeps. */
  lemma SweepSparesLive(states: seq<State>, steps: seq<Action>, k: nat, i: nat, h: TokenHash)
    requires Behavior(states, steps) && k < |steps| && steps[k] == OnOther(i, SweepRun)
    requires h in states[k].tokens
    ensures var s, t := states[k], states[k + 1];
            && (s.tokens[h].expires >= s.now - s.cfg.retention ==> h in t.tokens)
            && (Live(s.tokens[h], s.now) ==> h in t.tokens)
            && (h in t.tokens ==> t.tokens[h] == s.tokens[h])
  {
    ReachableInv(states, steps, k);
    assert StepAt(states, steps, k);
    SweptRow(states[k], i, h);
  }

  /** A sweep deletes the older end of a chain: with a token go all its ancestors. */
  lemma SweepTakesPrefix(states: seq<State>, steps: seq<Action>, k: nat, i: nat, g: TokenHash, h: TokenHash)
    requires Behavior(states, steps) && k < |steps| && steps[k] == OnOther(i, SweepRun)
    requires h in states[k].tokens && h !in states[k + 1].tokens
    requires var b := states[k].births; g in b && h in b && b[g].family == b[h].family && b[g].depth <= b[h].depth
    ensures g !in states[k + 1].tokens
  {
    ReachableInv(states, steps, k + 1);
    assert StepAt(states, steps, k);
    assert states[k + 1].births == states[k].births;
  }

  /** Cleanup never hides a replay within retention: an exchanged token presented again no later than
      `retention` after its own expiry, while its family is live, is still classified as reuse. */
  lemma ReplayWithinRetentionIsReuse(states: seq<State>, steps: seq<Action>, k: nat, n: nat, at: Time, familyAt: Time)
    requires Behavior(states, steps) && k < |states|
    requires n < |states[k].log| && states[k].log[n].TokenRotated?
    requires var s := states[k];
             var p := s.log[n].presented;
             && p in s.births
             && s.now <= s.births[p].expires + s.cfg.retention
             && FamilyLive(s.tokens, s.births[p].family, familyAt)
    ensures Classify(states[k].tokens, states[k].log[n].presented, at, familyAt) == Reuse
  {
    ReachableInv(states, steps, k);
    var s := states[k];
    var p := s.log[n].presented;
    SpentIsRotated(s, n);
    var f :| f in s.tokens && s.tokens[f].family == s.births[p].family && Live(s.tokens[f], familyAt);
    FamilyOwner(s.births, s.chain, s.log, f, p);
  }
}
