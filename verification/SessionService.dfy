/** The use cases and repository methods as they are written: statement after statement on one
    database that every other caller keeps changing in between.

    `Database` records the run that led to its state, so whatever a method returns is a fact about a
    run, and the theorems about runs apply to it. */
module SessionService {
  import opened Wrappers
  import opened SessionModel
  import opened SessionInvariant
  import opened SessionSafety
  import opened SessionTheorems
  import opened SessionReuse
  import opened SessionEffects

  /** What Rotate returns: domain.RotateResult or an error. */
  datatype RotateResult =
    | Issued
    | ReuseDetected(sessionsRevoked: nat)
    | Refused(verdict: Verdict)
    | Failed

  datatype LoginResult = Stored(hash: TokenHash) | InvalidCredentials | LoginFailed

  /** What the writes to one user's row and sessions return. */
  datatype OwnerResult = Committed(sessionsRevoked: nat) | UserNotFound | OwnerFailed

  /** `more` goes on where `run` stopped. */
  ghost predicate GoesOn(run: seq<State>, steps: seq<Action>, more: seq<State>, later: seq<Action>) {
    run <= more && steps <= later
  }

  /** None of the steps from `j` to `k` belongs to caller `i`. */
  ghost predicate OthersOnly(steps: seq<Action>, i: nat, j: int, k: int) {
    0 <= j <= k <= |steps| && forall m :: j <= m < k ==> Caller(steps[m]) != Some(i)
  }

  /** Steps of other callers leave call `i` where it is. */
  lemma {:induction false} OthersLeaveCall(states: seq<State>, steps: seq<Action>, i: nat, j: nat, k: nat)
    requires Behavior(states, steps) && OthersOnly(steps, i, j, k) && At(states[j], i)
    ensures |states[k].calls| == |states[j].calls| && states[k].calls[i] == states[j].calls[i]
  {
    if j < k {
      OthersLeaveCall(states, steps, i, j, k - 1);
      assert StepAt(states, steps, k - 1);
      StepMovesOneCall(states[k - 1], steps[k - 1]);
    }
  }

  lemma BehaviorThen(states: seq<State>, steps: seq<Action>, a: Action)
    requires Behavior(states, steps) && Enabled(states[|steps|], a)
    ensures Behavior(states + [Apply(states[|steps|], a)], steps + [a])
  {
    var more, later := states + [Apply(states[|steps|], a)], steps + [a];
    forall k | 0 <= k < |later| ensures StepAt(more, later, k) {
      if k < |steps| { assert StepAt(states, steps, k); }
    }
  }

  /** The steps of caller `i` since `from` left both tables alone. */
  ghost predicate WroteNothing(states: seq<State>, steps: seq<Action>, i: nat, from: nat) {
    |states| == |steps| + 1 && forall m :: from <= m < |steps| && Caller(steps[m]) == Some(i) ==>
      states[m + 1].tokens == states[m].tokens && states[m + 1].users == states[m].users
  }

  /** One more statement of `i`, after steps of others, that wrote nothing. */
  lemma StillNothing(run: seq<State>, steps: seq<Action>, more: seq<State>, later: seq<Action>, i: nat, from: nat)
    requires WroteNothing(run, steps, i, from) && GoesOn(run, steps, more, later) && |more| == |later| + 1
    requires |later| > |steps| && OthersOnly(later, i, |steps|, |later| - 1)
    requires more[|later|].tokens == more[|later| - 1].tokens && more[|later|].users == more[|later| - 1].users
    ensures WroteNothing(more, later, i, from)
  {
    forall m | from <= m < |later| && Caller(later[m]) == Some(i)
      ensures more[m + 1].tokens == more[m].tokens && more[m + 1].users == more[m].users
    {
      if m < |steps| { assert later[m] == steps[m] && more[m] == run[m] && more[m + 1] == run[m + 1]; }
    }
  }

  /** Steps that leave both tables alone. */
  predicate Quiet(a: Action) {
    match a
    case OnLogin(_, l) => !l.CreateCommit?
    case OnRefresh(_, r) => !r.RotateCommit? && !r.ReuseCommit?
    case OnOwner(_, o) => o.ChangeLock? || o.ChangeWrite? || o.ChangeRevoke? || o.BulkLock? || o.BulkRevoke?
    case OnOther(_, o) => !o.SweepRun?
    case _ => false
  }

  lemma QuietLogin(s: State, i: nat, l: LoginStep)
    requires LoginEnabled(s, i, l) && !l.CreateCommit?
    ensures LoginApply(s, i, l).tokens == s.tokens && LoginApply(s, i, l).users == s.users
  {
    match l
    case LoginRead(user) =>
    case LoginIssue(hash) =>
    case CreateLock =>
    case CreateInsert(family) =>
  }

  lemma QuietOwner(s: State, i: nat, o: OwnerStep)
    requires OwnerEnabled(s, i, o)
    requires o.ChangeLock? || o.ChangeWrite? || o.ChangeRevoke? || o.BulkLock? || o.BulkRevoke?
    ensures OwnerApply(s, i, o).tokens == s.tokens && OwnerApply(s, i, o).users == s.users
  {
    match o
    case ChangeLock(user, fields) =>
    case ChangeWrite =>
    case ChangeRevoke =>
    case BulkLock(user) =>
    case BulkRevoke =>
  }

  lemma QuietStep(s: State, a: Action)
    requires Enabled(s, a) && Quiet(a)
    ensures Apply(s, a).tokens == s.tokens && Apply(s, a).users == s.users
  {
    match a
    case OnLogin(i, l) => QuietLogin(s, i, l);
    case OnRefresh(i, r) => RefreshWritesAtCommit(s, i, r);
    case OnOwner(i, o) => QuietOwner(s, i, o);
    case OnOther(i, o) => QuietOther(s, i, o);
  }

  lemma QuietOther(s: State, i: nat, o: OtherStep)
    requires OtherEnabled(s, i, o) && !o.SweepRun?
    ensures OtherApply(s, i, o).tokens == s.tokens && OtherApply(s, i, o).users == s.users
  {
    match o
    case SweepBegin =>
    case Fail =>
    case Count =>
  }

  /** The last step is a statement of call `i` that failed. */
  ghost predicate Aborted(steps: seq<Action>, i: nat) {
    |steps| > 0 && steps[|steps| - 1] == OnOther(i, Fail)
  }

  /** The refresh ended with a failed statement, or with a replacement that is already stored. */
  ghost predicate GaveUp(states: seq<State>, steps: seq<Action>, i: nat) {
    || Aborted(steps, i)
    || (&& |steps| > 0 && |states| == |steps| + 1
        && steps[|steps| - 1] == OnRefresh(i, RotateInsert) && Collides(states[|steps| - 1], i))
  }

  /** The login ended with a failed statement, a user who is gone, or a token that is already stored. */
  ghost predicate LoginGaveUp(states: seq<State>, steps: seq<Action>, i: nat, user: UserId) {
    || Aborted(steps, i)
    || (&& |steps| > 0 && |states| == |steps| + 1
        && var last := states[|steps| - 1];
        && At(last, i)
        && (|| (steps[|steps| - 1] == OnLogin(i, CreateLock) && user !in last.users)
            || (steps[|steps| - 1].OnLogin? && steps[|steps| - 1].i == i && steps[|steps| - 1].login.CreateInsert?
                && last.calls[i].CreateLocked? && last.calls[i].session.hash in last.tokens)))
  }

  /** At some point since `from` the token was live. */
  ghost predicate LiveSeen(states: seq<State>, from: nat, h: TokenHash) {
    exists k :: from <= k < |states| - 1 && LiveNow(states[k], h)
  }

  /** At some point since `from` the decision table called the token reused. */
  ghost predicate ReplaySeen(states: seq<State>, from: nat, h: TokenHash) {
    exists k :: from <= k < |states| - 1 && TableSays(states[k].tokens, h, states[k].now, Reuse)
  }

  /** Step `at` exchanged the token, which was live at some point since `from`. */
  ghost predicate Renewed(states: seq<State>, at: nat, from: nat, p: TokenHash, r: TokenHash, expires: Time) {
    exists k :: from <= k <= at && at + 1 < |states| && LiveNow(states[k], p)
                && Exchanges(states[at], states[at + 1], p, r, expires)
  }

  /** Step `at` ended `n` sessions for the token, which the decision table called reused since `from`. */
  ghost predicate ReuseFound(states: seq<State>, at: nat, from: nat, p: TokenHash, n: nat) {
    exists k :: from <= k <= at && at + 1 < |states| && TableSays(states[k].tokens, p, states[k].now, Reuse)
                && EndsForReuse(states[at], states[at + 1], p, n)
  }

  /** What step `at` did, for a refresh that committed. */
  ghost predicate Recorded(states: seq<State>, at: nat, from: nat, x: Exchange, result: RotateResult) {
    match result
    case Issued => Renewed(states, at, from, x.presented, x.replacement, x.expires)
    case ReuseDetected(n) => ReuseFound(states, at, from, x.presented, n)
    case _ => true
  }

  class Database {
    var s: State
    ghost var states: seq<State>
    ghost var steps: seq<Action>

    ghost predicate Valid()
      reads this
    {
      Behavior(states, steps) && states[|steps|] == s
    }

    constructor (cfg: Config, callers: nat, start: Time)
      requires cfg.Valid()
      ensures Valid() && |s.calls| == callers && s.cfg == cfg && s.now == start
      ensures forall i :: 0 <= i < callers ==> s.calls[i] == Idle
    {
      var empty := State(cfg, start, map[], map[], 0, seq(callers, _ => Idle), Counters(0, 0, 0, 0),
                         {}, {}, map[], map[], map[], []);
      s, states, steps := empty, [empty], [];
    }

    /** One step, by whoever's turn it is. */
    method Take(a: Action)
      requires Valid() && Enabled(s, a)
      modifies this
      ensures Valid() && s == Apply(old(s), a)
      ensures steps == old(steps) + [a] && states == old(states) + [s]
    {
      BehaviorThen(states, steps, a);
      s := Apply(s, a);
      states, steps := states + [s], steps + [a];
    }

    /** Anything the other callers, the clock and user management may do meanwhile. */
    method Others(i: nat)
      requires Valid()
      modifies this
      ensures Valid() && GoesOn(old(states), old(steps), states, steps)
      ensures OthersOnly(steps, i, old(|steps|), |steps|)
    {
      var n: nat := *;
      while n > 0
        invariant Valid() && GoesOn(old(states), old(steps), states, steps)
        invariant OthersOnly(steps, i, old(|steps|), |steps|)
      {
        var a: Action := *;
        if Caller(a) != Some(i) && Enabled(s, a) { Take(a); }
        n := n - 1;
      }
    }

    /** Statement `a` of call `i`: the others go on, then it is executed if its locks are granted before
        the call's context ends and it does not fail. `before` is the state it was executed in. */
    method Statement(i: nat, a: Action) returns (done: bool, ghost before: State)
      requires Valid() && At(s, i) && Caller(a) == Some(i)
      modifies this
      ensures Valid() && GoesOn(old(states), old(steps), states, steps)
      ensures |before.calls| == |s.calls| == old(|s.calls|) && before.calls[i] == old(s.calls[i])
      ensures done ==>
                && |steps| > old(|steps|) && steps[|steps| - 1] == a && states[|steps| - 1] == before
                && Enabled(before, a) && s == Apply(before, a)
                && OthersOnly(steps, i, old(|steps|), |steps| - 1)
      ensures !done ==> s == before && OthersOnly(steps, i, old(|steps|), |steps|)
    {
      ghost var from := |steps|;
      Others(i);
      OthersLeaveCall(states, steps, i, from, |steps|);
      before := s;
      var alive: bool := *;
      done := alive && Enabled(s, a);
      if done {
        StepMovesOneCall(s, a);
        Take(a);
      }
    }

    /** The call fails, and its transaction, if it has one, is rolled back. */
    method RollBack(i: nat)
      requires Valid() && At(s, i) && !s.calls[i].Counting?
      modifies this
      ensures Valid() && steps == old(steps) + [OnOther(i, Fail)] && states == old(states) + [s]
      ensures |s.calls| == old(|s.calls|) && s.calls[i] == Idle && s.tokens == old(s.tokens) && s.users == old(s.users)
      ensures s.cfg == old(s.cfg)
    {
      Take(OnOther(i, Fail));
    }

    /** A statement of call `i` that writes nothing yet; if it fails, the call is rolled back. */
    method Proceed(i: nat, a: Action, ghost from: nat) returns (done: bool, ghost before: State)
      requires Valid() && At(s, i) && !s.calls[i].Counting? && Caller(a) == Some(i) && Quiet(a)
      requires from <= |steps| && WroteNothing(states, steps, i, from)
      modifies this
      ensures Valid() && GoesOn(old(states), old(steps), states, steps) && |steps| > old(|steps|)
      ensures |before.calls| == |s.calls| == old(|s.calls|) && before.calls[i] == old(s.calls[i])
      ensures done ==> Enabled(before, a) && s == Apply(before, a)
      ensures done ==> steps[|steps| - 1] == a && states[|steps| - 1] == before
      ensures !done ==> s.calls[i] == Idle && Aborted(steps, i)
      ensures WroteNothing(states, steps, i, from)
    {
      ghost var run, acts := states, steps;
      done, before := Statement(i, a);
      if done { QuietStep(before, a); } else { RollBack(i); }
      StillNothing(run, acts, states, steps, i, from);
    }

    /** A statement that writes when it is done; if it fails, the call is rolled back. */
    method Commit(i: nat, a: Action, ghost from: nat) returns (done: bool)
      requires Valid() && At(s, i) && !s.calls[i].Counting? && Caller(a) == Some(i)
      requires from <= |steps| && WroteNothing(states, steps, i, from)
      modifies this
      ensures Valid() && GoesOn(old(states), old(steps), states, steps) && |steps| > old(|steps|)
      ensures |s.calls| == old(|s.calls|)
      ensures done ==>
                && steps[|steps| - 1] == a && At(states[|steps| - 1], i)
                && states[|steps| - 1].calls[i] == old(s.calls[i])
      ensures !done ==> s.calls[i] == Idle && Aborted(steps, i) && WroteNothing(states, steps, i, from)
    {
      ghost var run, acts := states, steps;
      ghost var before;
      done, before := Statement(i, a);
      if !done {
        RollBack(i);
        StillNothing(run, acts, states, steps, i, from);
      }
    }

    // ---- Rotate

    /** The inspecting statement, which reads the clock twice while it runs. */
    method Inspect(i: nat, presented: TokenHash, ghost from: nat) returns (done: bool)
      requires Valid() && At(s, i) && s.calls[i].RotateMissed? && s.calls[i].presented == presented
      requires from <= |steps| && WroteNothing(states, steps, i, from)
      modifies this
      ensures Valid() && GoesOn(old(states), old(steps), states, steps) && |s.calls| == old(|s.calls|)
      ensures done ==> Answered(i, presented)
      ensures !done ==> s.calls[i] == Idle && Aborted(steps, i)
      ensures from <= |steps| && WroteNothing(states, steps, i, from)
    {
      ghost var run, acts := states, steps;
      Others(i);
      OthersLeaveCall(states, steps, i, |acts|, |steps|);
      var at: Time :| s.now <= at;
      var familyAt: Time :| at <= familyAt;
      done := *;
      if done { Answer(i, presented, at, familyAt); } else { RollBack(i); }
      StillNothing(run, acts, states, steps, i, from);
    }

    /** The call goes on to end sessions or was refused, as the decision table says. */
    ghost predicate Answered(i: nat, presented: TokenHash)
      reads this
    {
      && At(s, i)
      && (|| (&& s.calls[i].RotateReplay? && s.calls[i].presented == presented
              && TableSays(s.tokens, presented, s.now, Reuse))
          || (s.calls[i] == Idle && RefusedNow(s, presented)))
    }

    /** The answer of the inspecting statement at its two clock readings. */
    method Answer(i: nat, presented: TokenHash, at: Time, familyAt: Time)
      requires Valid() && CanRotateInspect(s, i, at, familyAt) && s.calls[i].presented == presented
      modifies this
      ensures Valid() && steps == old(steps) + [OnRefresh(i, RotateInspect(at, familyAt))]
              && states == old(states) + [s]
      ensures |s.calls| == old(|s.calls|) && s.tokens == old(s.tokens) && s.users == old(s.users)
      ensures Answered(i, presented)
    {
      InspectWritesNothing(s, i, at, familyAt);
      Take(OnRefresh(i, RotateInspect(at, familyAt)));
      InspectedByTable(states, steps, i, at, familyAt);
    }

    /** What a call of Rotate that began at step `from` has done when it returns. */
    ghost predicate Outcome(i: nat, x: Exchange, from: nat, result: RotateResult)
      reads this
    {
      && At(s, i) && |steps| > 0 && |states| == |steps| + 1
      && var before := states[|steps| - 1];
      match result
      case Issued =>
        s.calls[i] == Counting(Rotations, 1) && Exchanges(before, s, x.presented, x.replacement, x.expires)
      case ReuseDetected(n) =>
        s.calls[i] == Counting(ReuseSessions, n) && EndsForReuse(before, s, x.presented, n)
      case Refused(verdict) =>
        s.calls[i] == Idle && RefusedLast(s, x.presented, verdict) && WroteNothing(states, steps, i, from)
      case Failed =>
        s.calls[i] == Idle && GaveUp(states, steps, i) && WroteNothing(states, steps, i, from)
    }

    /** The commit of an exchange. */
    method CommitExchange(i: nat, x: Exchange, ghost from: nat) returns (result: RotateResult)
      requires Valid() && At(s, i) && s.calls[i].RotateInserted? && s.calls[i].x == x
      requires from <= |steps| && WroteNothing(states, steps, i, from)
      modifies this
      ensures Valid() && GoesOn(old(states), old(steps), states, steps) && |s.calls| == old(|s.calls|)
      ensures (result.Issued? || result.Failed?) && Outcome(i, x, from, result)
    {
      var done := Commit(i, OnRefresh(i, RotateCommit), from);
      if !done { return Failed; }
      CommittedExchange(states, steps, |steps| - 1, i);
      return Issued;
    }

    /** Rotate after its consume matched the row: insert the replacement and commit. */
    method StoreReplacement(i: nat, x: Exchange, ghost from: nat) returns (result: RotateResult)
      requires Valid() && At(s, i) && s.calls[i].RotateConsumed? && s.calls[i].x == x
      requires from <= |steps| && WroteNothing(states, steps, i, from)
      modifies this
      ensures Valid() && GoesOn(old(states), old(steps), states, steps) && |s.calls| == old(|s.calls|)
      ensures (result.Issued? || result.Failed?) && Outcome(i, x, from, result)
    {
      var done, before := Proceed(i, OnRefresh(i, RotateInsert), from);
      if !done { return Failed; }
      InsertedInRun(states, steps, i);
      if s.calls[i].Idle? { return Failed; }
      result := CommitExchange(i, x, from);
    }

    /** The commit of a detected reuse. */
    method CommitReuse(i: nat, x: Exchange, ghost from: nat) returns (result: RotateResult)
      requires Valid() && At(s, i) && s.calls[i].RotateEnding? && s.calls[i].presented == x.presented
      requires from <= |steps| && WroteNothing(states, steps, i, from)
      modifies this
      ensures Valid() && GoesOn(old(states), old(steps), states, steps) && |s.calls| == old(|s.calls|)
      ensures (result.ReuseDetected? || result.Failed?) && Outcome(i, x, from, result)
    {
      var done := Commit(i, OnRefresh(i, ReuseCommit), from);
      if !done { return Failed; }
      CommittedReuse(states, steps, |steps| - 1, i);
      return ReuseDetected(s.calls[i].amount);
    }

    /** The end of handleUnusable for a replay: revoke every session of the owner and commit. */
    method EndSessions(i: nat, x: Exchange, ghost from: nat) returns (result: RotateResult)
      requires Valid() && At(s, i) && s.calls[i].RotateReplay? && s.calls[i].presented == x.presented
      requires from <= |steps| && WroteNothing(states, steps, i, from)
      modifies this
      ensures Valid() && GoesOn(old(states), old(steps), states, steps) && |s.calls| == old(|s.calls|)
      ensures (result.ReuseDetected? || result.Failed?) && Outcome(i, x, from, result)
    {
      var done, before := Proceed(i, OnRefresh(i, RotateRevoke), from);
      if !done { return Failed; }
      result := CommitReuse(i, x, from);
    }

    /** handleUnusable, and the commit of what it revoked: it answers by the decision table, and reports a
        reuse only if the table did. */
    method HandleUnusable(i: nat, x: Exchange, ghost from: nat) returns (result: RotateResult)
      requires Valid() && At(s, i) && s.calls[i].RotateMissed? && s.calls[i].presented == x.presented
      requires from <= |steps| && WroteNothing(states, steps, i, from)
      modifies this
      ensures Valid() && GoesOn(old(states), old(steps), states, steps) && |s.calls| == old(|s.calls|)
      ensures !result.Issued? && Outcome(i, x, from, result)
      ensures result.ReuseDetected? ==> ReplaySeen(states, from, x.presented)
    {
      var done := Inspect(i, x.presented, from);
      if !done { return Failed; }
      if s.calls[i].Idle? { return Refused(s.log[|s.log| - 1].verdict); }
      ghost var run, at := states, |steps|;
      result := EndSessions(i, x, from);
      assert states[at] == run[at];
    }

    /** The statement that looks the presented token's owner up. */
    method LookUp(i: nat, x: Exchange, ghost from: nat) returns (found: bool, result: RotateResult)
      requires Valid() && At(s, i) && s.calls[i] == RefreshBegun(x)
      requires from <= |steps| && WroteNothing(states, steps, i, from)
      modifies this
      ensures Valid() && GoesOn(old(states), old(steps), states, steps) && |s.calls| == old(|s.calls|)
      ensures from <= |steps| && WroteNothing(states, steps, i, from)
      ensures found ==> s.calls[i].RotateFound? && s.calls[i].x == x
      ensures !found ==> (result.Refused? || result.Failed?) && Outcome(i, x, from, result)
    {
      var done, before := Proceed(i, OnRefresh(i, RotateLookup), from);
      if !done { return false, Failed; }
      FoundOrUnknown(before, i);
      return s.calls[i].RotateFound?, Refused(Unknown);
    }

    /** The statement that locks the owner's row. */
    method LockOwner(i: nat, x: Exchange, ghost from: nat) returns (locked: bool, result: RotateResult)
      requires Valid() && At(s, i) && s.calls[i].RotateFound? && s.calls[i].x == x
      requires from <= |steps| && WroteNothing(states, steps, i, from)
      modifies this
      ensures Valid() && GoesOn(old(states), old(steps), states, steps) && |s.calls| == old(|s.calls|)
      ensures from <= |steps| && WroteNothing(states, steps, i, from)
      ensures locked ==> s.calls[i].RotateLocked? && s.calls[i].x == x
      ensures !locked ==> (result.Refused? || result.Failed?) && Outcome(i, x, from, result)
    {
      var done, before := Proceed(i, OnRefresh(i, RotateLock), from);
      if !done { return false, Failed; }
      LockedOrGone(states, steps, before, i);
      return s.calls[i].RotateLocked?, Refused(Unknown);
    }

    /** The statement that consumes the token, and what follows from whether it matched the row. */
    method Spend(i: nat, x: Exchange, ghost from: nat) returns (result: RotateResult)
      requires Valid() && At(s, i) && s.calls[i].RotateLocked? && s.calls[i].x == x
      requires from <= |steps| && WroteNothing(states, steps, i, from)
      modifies this
      ensures Valid() && GoesOn(old(states), old(steps), states, steps) && |s.calls| == old(|s.calls|)
      ensures Outcome(i, x, from, result)
      ensures result.Issued? ==> LiveSeen(states, from, x.presented)
      ensures result.ReuseDetected? ==> ReplaySeen(states, from, x.presented)
    {
      var done, before := Proceed(i, OnRefresh(i, RotateConsume), from);
      if !done { return Failed; }
      ConsumedOrMissed(before, i);
      if s.calls[i].RotateMissed? {
        result := HandleUnusable(i, x, from);
      } else {
        ghost var run, at := states, |steps| - 1;
        result := StoreReplacement(i, x, from);
        assert states[at] == run[at];
      }
    }

    /** Rotate, from the lookup of the owner to its commit or rollback. */
    method Rotate(i: nat, x: Exchange, ghost from: nat) returns (result: RotateResult)
      requires Valid() && At(s, i) && s.calls[i] == RefreshBegun(x)
      requires from <= |steps| && WroteNothing(states, steps, i, from)
      modifies this
      ensures Valid() && GoesOn(old(states), old(steps), states, steps) && |s.calls| == old(|s.calls|)
      ensures Outcome(i, x, from, result)
      ensures result.Issued? ==> LiveSeen(states, from, x.presented)
      ensures result.ReuseDetected? ==> ReplaySeen(states, from, x.presented)
    {
      var ok: bool;
      ok, result := LookUp(i, x, from);
      if !ok { return; }
      ok, result := LockOwner(i, x, from);
      if !ok { return; }
      result := Spend(i, x, from);
    }

    // ---- Refresh and Logout

    /** The use case updates its counter, some time after the commit. */
    method Tally(i: nat)
      requires Valid() && At(s, i) && s.calls[i].Counting?
      modifies this
      ensures Valid() && GoesOn(old(states), old(steps), states, steps) && |s.calls| == old(|s.calls|)
      ensures |steps| > 0 && s.calls[i] == Idle
      ensures s.counters == Counted(states[|steps| - 1].counters, old(s.calls[i].which), old(s.calls[i].amount))
    {
      ghost var from := |steps|;
      Others(i);
      OthersLeaveCall(states, steps, i, from, |steps|);
      Take(OnOther(i, Count));
    }

    /** Draws the replacement and its expiry. */
    method Begin(i: nat, presented: TokenHash) returns (x: Exchange)
      requires Valid() && At(s, i) && s.calls[i].Idle?
      modifies this
      ensures Valid() && GoesOn(old(states), old(steps), states, steps) && |s.calls| == old(|s.calls|)
      ensures s.calls[i] == RefreshBegun(x) && x.presented == presented && x.expires == old(s.now) + s.cfg.ttl
      ensures |steps| > old(|steps|) && WroteNothing(states, steps, i, old(|steps|)) && s.cfg == old(s.cfg)
    {
      var replacement: TokenHash := *;
      Take(OnRefresh(i, RefreshBegin(presented, replacement)));
      x := s.calls[i].x;
    }

    /** Refresh: draw a replacement, rotate, count a success or the sessions a reuse ended. `at` is the
        step that committed the success or the reuse. */
    method Refresh(i: nat, presented: TokenHash) returns (result: RotateResult, x: Exchange, ghost at: nat)
      requires Valid() && At(s, i) && s.calls[i].Idle?
      modifies this
      ensures Valid() && GoesOn(old(states), old(steps), states, steps) && |s.calls| == old(|s.calls|)
      ensures s.calls[i] == Idle && old(|steps|) <= at < |steps|
      ensures x.presented == presented && x.expires == old(s.now) + old(s.cfg.ttl)
      ensures Recorded(states, at, old(|steps|), x, result)
      ensures result.Issued? ==> s.counters.rotations == states[|steps| - 1].counters.rotations + 1
      ensures result.ReuseDetected? ==>
                s.counters.reuse == states[|steps| - 1].counters.reuse + result.sessionsRevoked
      ensures result.Refused? ==> RefusedLast(s, presented, result.verdict)
      ensures result.Failed? ==> GaveUp(states, steps, i)
      ensures result.Refused? || result.Failed? ==> WroteNothing(states, steps, i, old(|steps|))
    {
      x, result := Present(i, presented);
      at := |steps| - 1;
      if result.Refused? || result.Failed? { return; }
      ghost var run := states;
      Tally(i);
      RecordStays(run, states, at, old(|steps|), x, result);
    }

    /** Draws a replacement and rotates. */
    method Present(i: nat, presented: TokenHash) returns (x: Exchange, result: RotateResult)
      requires Valid() && At(s, i) && s.calls[i].Idle?
      modifies this
      ensures Valid() && GoesOn(old(states), old(steps), states, steps) && |s.calls| == old(|s.calls|)
      ensures |steps| > old(|steps|) && x.presented == presented && x.expires == old(s.now) + old(s.cfg.ttl)
      ensures Recorded(states, |steps| - 1, old(|steps|), x, result)
      ensures result.Issued? ==> s.calls[i] == Counting(Rotations, 1)
      ensures result.ReuseDetected? ==> s.calls[i] == Counting(ReuseSessions, result.sessionsRevoked)
      ensures result.Refused? || result.Failed? ==> s.calls[i] == Idle && WroteNothing(states, steps, i, old(|steps|))
      ensures result.Refused? ==> RefusedLast(s, presented, result.verdict)
      ensures result.Failed? ==> GaveUp(states, steps, i)
    {
      ghost var from := |steps|;
      x := Begin(i, presented);
      result := Rotate(i, x, from);
    }

    /** Logout: revoke the token if it is active; an unknown or revoked one is not an error. `at` is the
        step of its statement. */
    method Logout(i: nat, hash: TokenHash) returns (done: bool, ghost at: nat)
      requires Valid() && At(s, i) && s.calls[i].Idle?
      modifies this
      ensures Valid() && GoesOn(old(states), old(steps), states, steps) && |s.calls| == old(|s.calls|)
      ensures s.calls[i] == Idle && old(|steps|) <= at < |steps|
      ensures done ==> Caller(steps[at]) == Some(i) && EndsOnly(states[at], states[at + 1], hash)
      ensures !done ==> Aborted(steps, i) && WroteNothing(states, steps, i, old(|steps|))
    {
      done := Commit(i, OnOwner(i, OwnerStep.Logout(hash)), |steps|);
      at := |steps| - 1;
      if done {
        LoggedOutByRun(states, steps, at, i, hash);
        ghost var run, acts := states, steps;
        if s.calls[i].Counting? { Tally(i); }
        assert states[at] == run[at] && states[at + 1] == run[at + 1] && steps[at] == acts[at];
      }
    }

    // ---- login and Create

    /** Reads the user and draws a token and its expiry; `at` is the step that drew them. */
    method Issue(i: nat, user: UserId) returns (done: bool, x: Session, ghost at: nat)
      requires Valid() && At(s, i) && s.calls[i].Idle? && user in s.users
      modifies this
      ensures Valid() && GoesOn(old(states), old(steps), states, steps) && |s.calls| == old(|s.calls|)
      ensures old(|steps|) <= at < |steps| && WroteNothing(states, steps, i, old(|steps|))
      ensures done ==> s.calls[i] == LoginIssued(x) && x.user == user
      ensures done ==> x.expires == states[at].now + states[at].cfg.ttl
      ensures done ==> x.password == old(s.users)[user].password && x.version == old(s.users)[user].version
      ensures !done ==> s.calls[i] == Idle && Aborted(steps, i)
    {
      ghost var from := |steps|;
      Take(OnLogin(i, LoginRead(user)));
      var drawn: TokenHash := *;
      ghost var before;
      done, before := Proceed(i, OnLogin(i, LoginIssue(drawn)), from);
      x := if done then s.calls[i].session else Session(0, 0, 0, 0, 0, false);
      at := |steps| - 1;
    }

    /** login: read the user, verify the password, draw a token, store it if the version still stands. A
        session is stored with the password that was verified still in force, and expires one lifetime
        after the step `at` that drew it. */
    method Login(i: nat, user: UserId, verify: PasswordHash -> bool) returns (result: LoginResult, ghost at: nat)
      requires Valid() && At(s, i) && s.calls[i].Idle?
      modifies this
      ensures Valid() && GoesOn(old(states), old(steps), states, steps) && |s.calls| == old(|s.calls|)
      ensures s.calls[i] == Idle
      ensures result.Stored? ==>
                && user in old(s.users) && verify(old(s.users)[user].password) && old(|steps|) <= at < |steps|
                && StoresSession(states[|steps| - 1], s, user, old(s.users)[user].password, result.hash,
                                 states[at].now + states[at].cfg.ttl)
      ensures result.InvalidCredentials? ==>
                || user !in old(s.users) || !verify(old(s.users)[user].password)
                || (user in s.users && s.users[user].version != old(s.users)[user].version)
      ensures result.LoginFailed? ==> LoginGaveUp(states, steps, i, user)
      ensures !result.Stored? ==> WroteNothing(states, steps, i, old(|steps|))
    {
      ghost var from := |steps|;
      if user !in s.users || !verify(s.users[user].password) { return InvalidCredentials, 0; }
      var done, x;
      done, x, at := Issue(i, user);
      if !done { return LoginFailed, at; }
      ghost var run := states;
      result := StoreSession(i, x, from);
      assert states[at] == run[at];
    }

    /** Create's lock and version check. */
    method LockVersion(i: nat, x: Session, ghost from: nat) returns (result: LoginResult)
      requires Valid() && At(s, i) && s.calls[i] == LoginIssued(x)
      requires from <= |steps| && WroteNothing(states, steps, i, from)
      modifies this
      ensures Valid() && GoesOn(old(states), old(steps), states, steps) && |s.calls| == old(|s.calls|)
      ensures if result.Stored? then s.calls[i] == CreateLocked(x) else s.calls[i] == Idle
      ensures result.InvalidCredentials? ==> x.user in s.users && s.users[x.user].version != x.version
      ensures result.LoginFailed? ==> LoginGaveUp(states, steps, i, x.user)
      ensures from <= |steps| && WroteNothing(states, steps, i, from)
    {
      var done, before := Proceed(i, OnLogin(i, CreateLock), from);
      if !done { return LoginFailed; }
      if s.calls[i].Idle? { return if x.user in s.users then InvalidCredentials else LoginFailed; }
      return Stored(x.hash);
    }

    /** Create's commit. */
    method CommitSession(i: nat, x: Session, ghost from: nat) returns (done: bool)
      requires Valid() && At(s, i) && s.calls[i].CreateInserted? && s.calls[i].session == x
      requires from <= |steps| && WroteNothing(states, steps, i, from)
      modifies this
      ensures Valid() && GoesOn(old(states), old(steps), states, steps) && |s.calls| == old(|s.calls|)
      ensures s.calls[i] == Idle && |steps| > old(|steps|)
      ensures done ==> StoresSession(states[|steps| - 1], s, x.user, x.password, x.hash, x.expires)
      ensures !done ==> Aborted(steps, i) && WroteNothing(states, steps, i, from)
    {
      done := Commit(i, OnLogin(i, CreateCommit), from);
      if done { CommittedSession(states, steps, |steps| - 1, i); }
    }

    /** Create's insert and commit. */
    method InsertSession(i: nat, x: Session, ghost from: nat) returns (result: LoginResult)
      requires Valid() && At(s, i) && s.calls[i] == CreateLocked(x)
      requires from <= |steps| && WroteNothing(states, steps, i, from)
      modifies this
      ensures Valid() && GoesOn(old(states), old(steps), states, steps) && |s.calls| == old(|s.calls|)
      ensures s.calls[i] == Idle && |steps| > old(|steps|) && !result.InvalidCredentials?
      ensures result.Stored? ==> StoresSession(states[|steps| - 1], s, x.user, x.password, result.hash, x.expires)
      ensures result.LoginFailed? ==> LoginGaveUp(states, steps, i, x.user) && WroteNothing(states, steps, i, from)
    {
      var family: FamilyId := *;
      var done, before := Proceed(i, OnLogin(i, CreateInsert(family)), from);
      if !done || s.calls[i].Idle? { return LoginFailed; }
      done := CommitSession(i, x, from);
      return if done then Stored(x.hash) else LoginFailed;
    }

    /** Create. */
    method StoreSession(i: nat, x: Session, ghost from: nat) returns (result: LoginResult)
      requires Valid() && At(s, i) && s.calls[i] == LoginIssued(x)
      requires from <= |steps| && WroteNothing(states, steps, i, from)
      modifies this
      ensures Valid() && GoesOn(old(states), old(steps), states, steps) && |s.calls| == old(|s.calls|)
      ensures s.calls[i] == Idle && |steps| > old(|steps|)
      ensures result.Stored? ==> StoresSession(states[|steps| - 1], s, x.user, x.password, result.hash, x.expires)
      ensures result.InvalidCredentials? ==> x.user in s.users && s.users[x.user].version != x.version
      ensures result.LoginFailed? ==> LoginGaveUp(states, steps, i, x.user)
      ensures !result.Stored? ==> WroteNothing(states, steps, i, from)
    {
      result := LockVersion(i, x, from);
      if result.Stored? { result := InsertSession(i, x, from); }
    }

    // ---- password changes and bulk revocation

    /** The last step committed the edit `fields` of `user` and left the call its sessions to count. */
    ghost predicate JustChanged(i: nat, user: UserId, fields: UserUpdate, n: nat)
      reads this
    {
      && |steps| > 0 && |states| == |steps| + 1 && ChangedTo(states[|steps| - 1], s, user, fields)
      && At(s, i) && s.calls[i] == Counting(PasswordSessions, n) && n == |SessionsOf(states[|steps| - 1].tokens, user)|
    }

    /** How a call that did not commit ended. */
    ghost predicate OwnerRefused(i: nat, user: UserId, from: nat, result: OwnerResult)
      reads this
    {
      && At(s, i) && s.calls[i] == Idle && |steps| > 0 && |states| == |steps| + 1
      && (result.UserNotFound? ==> user !in states[|steps| - 1].users)
      && (result.OwnerFailed? ==> Aborted(steps, i))
      && WroteNothing(states, steps, i, from)
    }

    /** The lock of the user's row before a password change. */
    method LockForChange(i: nat, user: UserId, fields: UserUpdate, ghost from: nat) returns (result: OwnerResult)
      requires Valid() && At(s, i) && s.calls[i].Idle? && fields.password.Some?
      requires from <= |steps| && WroteNothing(states, steps, i, from)
      modifies this
      ensures Valid() && GoesOn(old(states), old(steps), states, steps) && |s.calls| == old(|s.calls|)
      ensures |steps| > old(|steps|) && WroteNothing(states, steps, i, from)
      ensures result.Committed? ==> s.calls[i] == ChangeLocked(user, fields)
      ensures !result.Committed? ==> OwnerRefused(i, user, from, result)
    {
      var done, before := Proceed(i, OnOwner(i, ChangeLock(user, fields)), from);
      if !done { return OwnerFailed; }
      return if s.calls[i].Idle? then UserNotFound else Committed(0);
    }

    /** inUserLock's lock of the user's row. */
    method LockForBulk(i: nat, user: UserId, ghost from: nat) returns (result: OwnerResult)
      requires Valid() && At(s, i) && s.calls[i].Idle?
      requires from <= |steps| && WroteNothing(states, steps, i, from)
      modifies this
      ensures Valid() && GoesOn(old(states), old(steps), states, steps) && |s.calls| == old(|s.calls|)
      ensures |steps| > old(|steps|) && WroteNothing(states, steps, i, from)
      ensures result.Committed? ==> s.calls[i] == BulkLocked(user)
      ensures !result.Committed? ==> OwnerRefused(i, user, from, result)
    {
      var done, before := Proceed(i, OnOwner(i, BulkLock(user)), from);
      if !done { return OwnerFailed; }
      return if s.calls[i].Idle? then UserNotFound else Committed(0);
    }

    /** The UPDATE of the user's row, not committed yet. */
    method WriteRow(i: nat, user: UserId, fields: UserUpdate, ghost from: nat) returns (result: OwnerResult)
      requires Valid() && At(s, i) && s.calls[i] == ChangeLocked(user, fields)
      requires from <= |steps| && WroteNothing(states, steps, i, from)
      modifies this
      ensures Valid() && GoesOn(old(states), old(steps), states, steps) && |s.calls| == old(|s.calls|)
      ensures |steps| > old(|steps|) && WroteNothing(states, steps, i, from)
      ensures result.Committed? ==> s.calls[i].ChangeWritten? && s.calls[i].owner == user && s.calls[i].fields == fields
      ensures !result.Committed? ==> OwnerRefused(i, user, from, result)
    {
      var done, before := Proceed(i, OnOwner(i, ChangeWrite), from);
      if !done { return OwnerFailed; }
      return if s.calls[i].Idle? then UserNotFound else Committed(0);
    }

    /** The revocation of the user's sessions, not committed yet. */
    method RevokeSessions(i: nat, user: UserId, fields: UserUpdate, ghost from: nat) returns (result: OwnerResult)
      requires Valid() && At(s, i) && s.calls[i].ChangeWritten? && s.calls[i].owner == user
               && s.calls[i].fields == fields
      requires from <= |steps| && WroteNothing(states, steps, i, from)
      modifies this
      ensures Valid() && GoesOn(old(states), old(steps), states, steps) && |s.calls| == old(|s.calls|)
      ensures |steps| > old(|steps|) && WroteNothing(states, steps, i, from)
      ensures result.Committed? ==> s.calls[i].ChangeRevoked? && s.calls[i].owner == user && s.calls[i].fields == fields
      ensures !result.Committed? ==> OwnerRefused(i, user, from, result)
    {
      var done, before := Proceed(i, OnOwner(i, ChangeRevoke), from);
      return if done then Committed(0) else OwnerFailed;
    }

    /** The commit of a password change. */
    method CommitCredentials(i: nat, user: UserId, fields: UserUpdate, ghost from: nat) returns (result: OwnerResult)
      requires Valid() && At(s, i) && s.calls[i].ChangeRevoked? && s.calls[i].owner == user
               && s.calls[i].fields == fields
      requires from <= |steps| && WroteNothing(states, steps, i, from)
      modifies this
      ensures Valid() && GoesOn(old(states), old(steps), states, steps) && |s.calls| == old(|s.calls|)
      ensures |steps| > old(|steps|) && !result.UserNotFound?
      ensures result.Committed? ==> JustChanged(i, user, fields, result.sessionsRevoked)
      ensures !result.Committed? ==> OwnerRefused(i, user, from, result)
    {
      var done := Commit(i, OnOwner(i, ChangeCommit), from);
      if !done { return OwnerFailed; }
      ChangedByCommit(states, steps, |steps| - 1, i);
      return Committed(s.calls[i].amount);
    }

    /** UpdateAndRevokeSessions: lock the user, write the credentials, end every session, commit. */
    method UpdateAndRevokeSessions(i: nat, user: UserId, fields: UserUpdate, ghost from: nat)
      returns (result: OwnerResult)
      requires Valid() && At(s, i) && s.calls[i].Idle? && fields.password.Some?
      requires from <= |steps| && WroteNothing(states, steps, i, from)
      modifies this
      ensures Valid() && GoesOn(old(states), old(steps), states, steps) && |s.calls| == old(|s.calls|)
      ensures |steps| > old(|steps|)
      ensures result.Committed? ==> JustChanged(i, user, fields, result.sessionsRevoked)
      ensures !result.Committed? ==> OwnerRefused(i, user, from, result)
    {
      result := LockForChange(i, user, fields, from);
      if result.Committed? { result := WriteCredentials(i, user, fields, from); }
    }

    /** UpdateAndRevokeSessions once it has the lock. */
    method WriteCredentials(i: nat, user: UserId, fields: UserUpdate, ghost from: nat) returns (result: OwnerResult)
      requires Valid() && At(s, i) && s.calls[i] == ChangeLocked(user, fields)
      requires from <= |steps| && WroteNothing(states, steps, i, from)
      modifies this
      ensures Valid() && GoesOn(old(states), old(steps), states, steps) && |s.calls| == old(|s.calls|)
      ensures |steps| > old(|steps|)
      ensures result.Committed? ==> JustChanged(i, user, fields, result.sessionsRevoked)
      ensures !result.Committed? ==> OwnerRefused(i, user, from, result)
    {
      result := WriteRow(i, user, fields, from);
      if result.Committed? { result := RevokeAndCommit(i, user, fields, from); }
    }

    method RevokeAndCommit(i: nat, user: UserId, fields: UserUpdate, ghost from: nat) returns (result: OwnerResult)
      requires Valid() && At(s, i) && s.calls[i].ChangeWritten? && s.calls[i].owner == user
               && s.calls[i].fields == fields
      requires from <= |steps| && WroteNothing(states, steps, i, from)
      modifies this
      ensures Valid() && GoesOn(old(states), old(steps), states, steps) && |s.calls| == old(|s.calls|)
      ensures |steps| > old(|steps|)
      ensures result.Committed? ==> JustChanged(i, user, fields, result.sessionsRevoked)
      ensures !result.Committed? ==> OwnerRefused(i, user, from, result)
    {
      result := RevokeSessions(i, user, fields, from);
      if result.Committed? { result := CommitCredentials(i, user, fields, from); }
    }

    /** Update with a password, which also counts the sessions it ended. `at` is the step that committed. */
    method ChangePassword(i: nat, user: UserId, fields: UserUpdate) returns (result: OwnerResult, ghost at: nat)
      requires Valid() && At(s, i) && s.calls[i].Idle? && fields.password.Some?
      modifies this
      ensures Valid() && GoesOn(old(states), old(steps), states, steps) && |s.calls| == old(|s.calls|)
      ensures s.calls[i] == Idle
      ensures result.Committed? ==>
                && old(|steps|) <= at < |steps| && ChangedTo(states[at], states[at + 1], user, fields)
                && result.sessionsRevoked == |SessionsOf(states[at].tokens, user)|
                && s.counters.password == states[|steps| - 1].counters.password + result.sessionsRevoked
      ensures !result.Committed? ==> OwnerRefused(i, user, old(|steps|), result)
    {
      ghost var from := |steps|;
      result := UpdateAndRevokeSessions(i, user, fields, from);
      at := |steps| - 1;
      if result.Committed? {
        ghost var run := states;
        Tally(i);
        assert states[at] == run[at] && states[at + 1] == run[at + 1];
      }
    }

    /** RevokeAllForUser: lock the user, log every session out, commit. */
    method RevokeAllForUser(i: nat, user: UserId) returns (result: OwnerResult)
      requires Valid() && At(s, i) && s.calls[i].Idle?
      modifies this
      ensures Valid() && GoesOn(old(states), old(steps), states, steps) && |s.calls| == old(|s.calls|)
      ensures s.calls[i] == Idle && |steps| > old(|steps|)
      ensures result.Committed? ==>
                var before := states[|steps| - 1];
                && s.users == before.users && RevokesAll(before.tokens, s.tokens, user, before.now, LoggedOut)
                && result.sessionsRevoked == |SessionsOf(before.tokens, user)|
      ensures !result.Committed? ==> OwnerRefused(i, user, old(|steps|), result)
    {
      ghost var from := |steps|;
      result := LockForBulk(i, user, from);
      if !result.Committed? { return; }
      result := RevokeBulk(i, user, from);
      if result.Committed? { result := CommitBulk(i, user, from); }
    }

    method RevokeBulk(i: nat, user: UserId, ghost from: nat) returns (result: OwnerResult)
      requires Valid() && At(s, i) && s.calls[i] == BulkLocked(user)
      requires from <= |steps| && WroteNothing(states, steps, i, from)
      modifies this
      ensures Valid() && GoesOn(old(states), old(steps), states, steps) && |s.calls| == old(|s.calls|)
      ensures |steps| > old(|steps|) && WroteNothing(states, steps, i, from)
      ensures result.Committed? ==> s.calls[i].BulkRevoked? && s.calls[i].owner == user
      ensures !result.Committed? ==> OwnerRefused(i, user, from, result)
    {
      var done, before := Proceed(i, OnOwner(i, BulkRevoke), from);
      return if done then Committed(0) else OwnerFailed;
    }

    method CommitBulk(i: nat, user: UserId, ghost from: nat) returns (result: OwnerResult)
      requires Valid() && At(s, i) && s.calls[i].BulkRevoked? && s.calls[i].owner == user
      requires from <= |steps| && WroteNothing(states, steps, i, from)
      modifies this
      ensures Valid() && GoesOn(old(states), old(steps), states, steps) && |s.calls| == old(|s.calls|)
      ensures s.calls[i] == Idle && |steps| > old(|steps|) && !result.UserNotFound?
      ensures result.Committed? ==>
                var before := states[|steps| - 1];
                && s.users == before.users && RevokesAll(before.tokens, s.tokens, user, before.now, LoggedOut)
                && result.sessionsRevoked == |SessionsOf(before.tokens, user)|
      ensures !result.Committed? ==> OwnerRefused(i, user, from, result)
    {
      var n := |s.calls[i].targets|;
      var done := Commit(i, OnOwner(i, BulkCommit), from);
      if !done { return OwnerFailed; }
      BulkRevokedByCommit(states, steps, |steps| - 1, i);
      return Committed(n);
    }

    // ---- cleanup

    /** CleanupOnce: a cutoff one retention period back, then the sweep. */
    method CleanupOnce(i: nat) returns (done: bool)
      requires Valid() && At(s, i) && s.calls[i].Idle?
      modifies this
      ensures Valid() && GoesOn(old(states), old(steps), states, steps) && |s.calls| == old(|s.calls|)
      ensures s.calls[i] == Idle && |steps| > old(|steps|)
      ensures done ==>
                var before := states[|steps| - 1];
                && KeepsRecent(before, s) && RemovesOld(before, s, old(s.now) - old(s.cfg.retention))
                && s.users == before.users
      ensures !done ==> Aborted(steps, i) && WroteNothing(states, steps, i, old(|steps|))
    {
      ghost var from := |steps|;
      Take(OnOther(i, SweepBegin));
      done := Sweep(i, from);
    }

    /** DeleteExpired. */
    method Sweep(i: nat, ghost from: nat) returns (done: bool)
      requires Valid() && At(s, i) && s.calls[i].SweepDue? && from <= |steps| && WroteNothing(states, steps, i, from)
      modifies this
      ensures Valid() && GoesOn(old(states), old(steps), states, steps) && |s.calls| == old(|s.calls|)
      ensures s.calls[i] == Idle && |steps| > old(|steps|)
      ensures done ==>
                var before := states[|steps| - 1];
                KeepsRecent(before, s) && RemovesOld(before, s, old(s.calls[i].cutoff)) && s.users == before.users
      ensures !done ==> Aborted(steps, i) && WroteNothing(states, steps, i, from)
    {
      done := Commit(i, OnOther(i, SweepRun), from);
      if done { SweptByRun(states, steps, |steps| - 1, i); }
    }
  }

  lemma RecordStays(run: seq<State>, more: seq<State>, at: nat, from: nat, x: Exchange, result: RotateResult)
    requires run <= more && Recorded(run, at, from, x, result)
    ensures Recorded(more, at, from, x, result)
  {
    if result.Issued? {
      var k :| from <= k <= at && at + 1 < |run| && LiveNow(run[k], x.presented);
      assert more[k] == run[k] && more[at] == run[at] && more[at + 1] == run[at + 1];
    } else if result.ReuseDetected? {
      var k :| from <= k <= at && at + 1 < |run| && TableSays(run[k].tokens, x.presented, run[k].now, Reuse);
      assert more[k] == run[k] && more[at] == run[at] && more[at + 1] == run[at + 1];
    }
  }

  /** After the INSERT of an exchange the call goes on, or its replacement collided. */
  lemma InsertedInRun(states: seq<State>, steps: seq<Action>, i: nat)
    requires Behavior(states, steps) && |steps| > 0 && steps[|steps| - 1] == OnRefresh(i, RotateInsert)
    ensures StepAt(states, steps, |steps| - 1)
    ensures var c, t := states[|steps| - 1].calls[i], states[|steps|];
            if Collides(states[|steps| - 1], i) then t.calls[i] == Idle
            else t.calls[i].RotateInserted? && t.calls[i].x == c.x
  {
    ReachableInv(states, steps, |steps| - 1);
    assert StepAt(states, steps, |steps| - 1);
    assert CallOk(states[|steps| - 1], states[|steps| - 1].calls[i]);
    InsertedOrCollided(states[|steps| - 1], i);
  }
}
