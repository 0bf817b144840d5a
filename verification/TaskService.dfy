/** The task use cases as they are written, on a table that other callers keep changing. */
module TaskService {
  import opened Wrappers
  import opened Text
  import opened TaskModel
  import opened TaskTheorems
  import opened TaskEdits

  datatype TaskResult =
    | Done(task: Task)
    | Deleted
    | NotFound
    | Conflict
    | NotAllowed(why: OwnerResult)
    | Rejected(reason: Invalid)
    | Failed

  ghost predicate OthersOnly(steps: seq<Action>, i: nat, j: int, k: int) {
    0 <= j <= k <= |steps| && forall m :: j <= m < k ==> Caller(steps[m]) != Some(i)
  }

  lemma StepKeepsCalls(s: State, a: Action)
    requires Enabled(s, a)
    ensures |Apply(s, a).calls| == |s.calls|
    ensures forall j: nat :: j < |s.calls| && Caller(a) != Some(j) ==> Apply(s, a).calls[j] == s.calls[j]
  {
  }

  lemma {:induction false} OthersLeaveCall(states: seq<State>, steps: seq<Action>, i: nat, j: nat, k: nat)
    requires Behavior(states, steps) && OthersOnly(steps, i, j, k) && i < |states[j].calls|
    ensures |states[k].calls| == |states[j].calls| && states[k].calls[i] == states[j].calls[i]
  {
    if j < k {
      OthersLeaveCall(states, steps, i, j, k - 1);
      assert StepAt(states, steps, k - 1);
      StepKeepsCalls(states[k - 1], steps[k - 1]);
    }
  }

  lemma BehaviorThen(states: seq<State>, steps: seq<Action>, a: Action)
    requires Behavior(states, steps) && Enabled(states[|steps|], a)
    ensures Behavior(states + [Apply(states[|steps|], a)], steps + [a])
  {
    var more, later := states + [Apply(states[|steps|], a)], steps + [a];
    forall k | 0 <= k < |later| ensures StepAt(more, later, k) {
      if k < |steps| { assert StepAt(states, steps, k); }
    }
  }

  /** The actor is refused exactly if it is no user of the table: the administrator, whose id is 0, may not
      own tasks, and anybody else without a positive id is not known. */
  ghost predicate Admitted(actor: Claims, result: TaskResult) {
    && (result.NotAllowed? <==> actor.userId <= 0)
    && (result.NotAllowed? ==> result.why == if actor.userId == 0 && actor.isAdmin then Forbidden else Unauthorized)
  }

  lemma OwnerOf(actor: Claims)
    ensures if actor.userId > 0 then TaskOwner(actor) == Owner(actor.userId)
            else TaskOwner(actor) == if actor.userId == 0 && actor.isAdmin then Forbidden else Unauthorized
  {
  }

  /** The row is there and belongs to `owner`. */
  ghost predicate Owned(s: State, id: TaskId, owner: UserId) {
    id in s.tasks && s.tasks[id].creator == owner
  }

  /** At some point since `from` the row was not there or not the owner's. */
  ghost predicate AbsentSeen(states: seq<State>, from: nat, id: TaskId, owner: UserId) {
    exists k :: from <= k < |states| && !Owned(states[k], id, owner)
  }

  /** The steps of caller `i` from `from` up to `to` left the table alone. */
  ghost predicate WroteNothing(states: seq<State>, steps: seq<Action>, i: nat, from: nat, to: nat) {
    |states| == |steps| + 1 && from <= to <= |steps|
    && forall m :: from <= m < to && Caller(steps[m]) == Some(i) ==> states[m + 1].tasks == states[m].tasks
  }

  /** The call ended with a statement that failed. */
  ghost predicate Aborted(steps: seq<Action>, i: nat) {
    |steps| > 0 && steps[|steps| - 1] == Leave(i)
  }

  /** Step `k` of caller `i` moved the status of the owner's row on by one and changed nothing else. */
  ghost predicate TogglesAt(states: seq<State>, steps: seq<Action>, k: int, i: nat, id: TaskId, owner: UserId,
                            task: Task) {
    && 0 <= k < |steps| && |states| == |steps| + 1 && steps[k] == ToggleSwap(i) && Owned(states[k], id, owner)
    && states[k + 1].tasks == states[k].tasks[id := task]
    && task == states[k].tasks[id].(status := task.status) && Follows(states[k].tasks[id].status, task.status)
  }

  /** How many swaps caller `i` has attempted since `from`. */
  function Swaps(steps: seq<Action>, i: nat, from: nat): nat {
    if |steps| <= from then 0
    else Swaps(steps[..|steps| - 1], i, from) + (if steps[|steps| - 1] == ToggleSwap(i) then 1 else 0)
  }

  lemma {:induction false} SwapsOn(steps: seq<Action>, more: seq<Action>, i: nat, from: nat)
    requires steps <= more && from <= |steps|
    requires OthersOnly(more, i, |steps|, |more|)
    ensures Swaps(more, i, from) == Swaps(steps, i, from)
  {
    if |more| > |steps| {
      SwapsOn(steps, more[..|more| - 1], i, from);
    } else {
      assert more == steps;
    }
  }

  lemma StillNothing(run: seq<State>, steps: seq<Action>, more: seq<State>, later: seq<Action>, i: nat, from: nat)
    requires WroteNothing(run, steps, i, from, |steps|) && run <= more && steps <= later && |more| == |later| + 1
    requires OthersOnly(later, i, |steps|, |later| - 1)
    ensures WroteNothing(more, later, i, from, |later| - 1)
  {
    forall m | from <= m < |later| - 1 && Caller(later[m]) == Some(i) ensures more[m + 1].tasks == more[m].tasks {
      if m < |steps| { assert later[m] == steps[m] && more[m] == run[m] && more[m + 1] == run[m + 1]; }
    }
  }

  class TaskTable {
    var s: State
    ghost var states: seq<State>
    ghost var steps: seq<Action>

    ghost predicate Valid()
      reads this
    {
      Behavior(states, steps) && states[|steps|] == s
    }

    constructor (callers: nat)
      ensures Valid() && |s.calls| == callers
      ensures forall i :: 0 <= i < callers ==> s.calls[i] == Idle
    {
      var empty := State(map[], 0, seq(callers, _ => Idle), []);
      s, states, steps := empty, [empty], [];
    }

    method Take(a: Action)
      requires Valid() && Enabled(s, a)
      modifies this
      ensures Valid() && s == Apply(old(s), a)
      ensures steps == old(steps) + [a] && states == old(states) + [s]
    {
      BehaviorThen(states, steps, a);
      s := Apply(s, a);
      states, steps := states + [s], steps + [a];
    }

    /** Anything the other callers may do between two statements of call `i`. */
    method Others(i: nat)
      requires Valid()
      modifies this
      ensures Valid() && old(states) <= states && old(steps) <= steps
      ensures OthersOnly(steps, i, old(|steps|), |steps|)
    {
      var n: nat := *;
      while n > 0
        invariant Valid() && old(states) <= states && old(steps) <= steps
        invariant OthersOnly(steps, i, old(|steps|), |steps|)
      {
        var a: Action := *;
        if Caller(a) != Some(i) && Enabled(s, a) { Take(a); }
        n := n - 1;
      }
    }

    /** Statement `a` of call `i`, after whatever the others did, if it does not fail; if it does, the call
        ends. `before` is the state it was executed in. */
    method Attempt(i: nat, a: Action, ghost from: nat) returns (done: bool, ghost before: State)
      requires Valid() && i < |s.calls| && Caller(a) == Some(i)
      requires forall t: State :: |t.calls| == |s.calls| && t.calls[i] == s.calls[i] ==> Enabled(t, a)
      requires WroteNothing(states, steps, i, from, |steps|)
      modifies this
      ensures Valid() && old(states) <= states && old(steps) <= steps && |steps| > old(|steps|)
      ensures |before.calls| == |s.calls| == old(|s.calls|) && before.calls[i] == old(s.calls[i])
      ensures states[|steps| - 1] == before && WroteNothing(states, steps, i, from, |steps| - 1)
      ensures done ==> steps[|steps| - 1] == a && Enabled(before, a) && s == Apply(before, a)
      ensures done ==> Swaps(steps, i, from) == old(Swaps(steps, i, from)) + if a.ToggleSwap? then 1 else 0
      ensures !done ==> s.calls[i] == Idle && Aborted(steps, i) && s.tasks == before.tasks
    {
      ghost var run, acts := states, steps;
      Others(i);
      OthersLeaveCall(states, steps, i, |acts|, |steps|);
      SwapsOn(acts, steps, i, from);
      before := s;
      done := *;
      var taken := if done then a else Leave(i);
      StepKeepsCalls(s, taken);
      Take(taken);
      StillNothing(run, acts, states, steps, i, from);
      assert steps[..|steps| - 1] + [taken] == steps;
    }

    /** Attempt for a statement that leaves the table alone. */
    method Look(i: nat, a: Action, ghost from: nat) returns (done: bool, ghost before: State)
      requires Valid() && i < |s.calls| && Caller(a) == Some(i)
               && (a.ToggleRead? || a.ToggleClassify? || a.DeleteCheck?)
      requires forall t: State :: |t.calls| == |s.calls| && t.calls[i] == s.calls[i] ==> Enabled(t, a)
      requires WroteNothing(states, steps, i, from, |steps|)
      modifies this
      ensures Valid() && old(states) <= states && old(steps) <= steps && |steps| > old(|steps|)
      ensures |before.calls| == |s.calls| == old(|s.calls|) && before.calls[i] == old(s.calls[i])
      ensures states[|steps| - 1] == before && WroteNothing(states, steps, i, from, |steps|)
      ensures done ==> Enabled(before, a) && s == Apply(before, a)
      ensures done ==> Swaps(steps, i, from) == old(Swaps(steps, i, from))
      ensures !done ==> s.calls[i] == Idle && Aborted(steps, i)
    {
      done, before := Attempt(i, a, from);
      if done { LooksOnly(before, a); }
    }

    /** The swap of a toggle: it moves the status on, or it writes nothing. */
    method Swap(i: nat, id: TaskId, owner: UserId, ghost from: nat) returns (done: bool)
      requires Valid() && i < |s.calls| && s.calls[i].ToggleSeen? && s.calls[i].id == id && s.calls[i].owner == owner
      requires WroteNothing(states, steps, i, from, |steps|)
      modifies this
      ensures Valid() && old(states) <= states && old(steps) <= steps && |s.calls| == old(|s.calls|)
      ensures |steps| > old(|steps|)
      ensures done && s.calls[i] == Idle ==>
                && id in s.tasks && TogglesAt(states, steps, |steps| - 1, i, id, owner, s.tasks[id])
                && WroteNothing(states, steps, i, from, |steps| - 1)
      ensures done && s.calls[i] != Idle ==>
                var c := old(s.calls[i]);
                && s.calls[i] == ToggleMissed(c.owner, c.id, c.attempt, c.start)
                && Swaps(steps, i, from) == old(Swaps(steps, i, from)) + 1
      ensures !done ==> s.calls[i] == Idle && Aborted(steps, i)
      ensures !done || s.calls[i] != Idle ==> WroteNothing(states, steps, i, from, |steps|)
    {
      ghost var before;
      done, before := Attempt(i, ToggleSwap(i), from);
      if done {
        ReachableInv(states, steps, |steps| - 1);
        SwapMoves(before, i);
      }
    }

    /** One round of the loop in ToggleStatus: GetByID, CompareAndSetStatus, and the classification of
        a transition that was missed. */
    method ToggleRound(i: nat, ghost from: nat) returns (result: TaskResult)
      requires Valid() && i < |s.calls| && s.calls[i].ToggleNext? && s.calls[i].attempt < MAX_TOGGLE_ATTEMPTS
      requires WroteNothing(states, steps, i, from, |steps|)
      modifies this
      ensures Valid() && old(states) <= states && old(steps) <= steps && |s.calls| == old(|s.calls|)
      ensures result.Done? || result.NotFound? || result.Conflict? || result.Failed?
      ensures Ended(i, old(s.calls[i].id), old(s.calls[i].owner), from, result)
      ensures result.Conflict? ==>
                var c := old(s.calls[i]);
                && s.calls[i] == ToggleNext(c.owner, c.id, c.attempt + 1, c.start)
                && Swaps(steps, i, from) == old(Swaps(steps, i, from)) + 1
      ensures !result.Conflict? ==> s.calls[i] == Idle
    {
      var id, owner := s.calls[i].id, s.calls[i].owner;
      var done, before := Look(i, ToggleRead(i), from);
      if !done { return Failed; }
      if s.calls[i].Idle? {
        assert !Owned(states[|steps| - 1], id, owner);
        return NotFound;
      }
      done := Swap(i, id, owner, from);
      if !done { return Failed; }
      if s.calls[i].Idle? { return Done(s.tasks[id]); }
      result := Classify(i, from);
    }

    /** classifyMissedTransition. */
    method Classify(i: nat, ghost from: nat) returns (result: TaskResult)
      requires Valid() && i < |s.calls| && s.calls[i].ToggleMissed?
      requires WroteNothing(states, steps, i, from, |steps|)
      modifies this
      ensures Valid() && old(states) <= states && old(steps) <= steps && |s.calls| == old(|s.calls|)
      ensures result.NotFound? || result.Conflict? || result.Failed?
      ensures Ended(i, old(s.calls[i].id), old(s.calls[i].owner), from, result)
      ensures result.Conflict? ==>
                var c := old(s.calls[i]);
                && s.calls[i] == ToggleNext(c.owner, c.id, c.attempt + 1, c.start)
                && Swaps(steps, i, from) == old(Swaps(steps, i, from))
      ensures !result.Conflict? ==> s.calls[i] == Idle
    {
      ghost var id, owner := s.calls[i].id, s.calls[i].owner;
      var done, before := Look(i, ToggleClassify(i), from);
      if !done { return Failed; }
      if !s.calls[i].Idle? { return Conflict; }
      assert !Owned(states[|steps| - 1], id, owner);
      return NotFound;
    }

    /** What a toggle that began at step `from` has done when it answers: a success is its last step, and any
        other answer means that it has not touched the table. */
    ghost predicate Ended(i: nat, id: TaskId, owner: UserId, from: nat, result: TaskResult)
      reads this
    {
      && (result.Done? ==>
            && TogglesAt(states, steps, |steps| - 1, i, id, owner, result.task) && from < |steps|
            && WroteNothing(states, steps, i, from, |steps| - 1))
      && (!result.Done? ==> WroteNothing(states, steps, i, from, |steps|))
      && (result.NotFound? ==> AbsentSeen(states, from, id, owner))
      && (result.Failed? ==> Aborted(steps, i))
    }

    /** ToggleStatus: at most fifty rounds, each from the status it finds. A success moved the status of the
        actor's row on by one, in its last step and in no other; any other answer wrote nothing. A conflict is
        reported after exactly fifty missed swaps, and only if fifty writes by others changed the status of
        this task while the call ran. */
    method ToggleStatus(i: nat, actor: Claims, id: TaskId) returns (result: TaskResult)
      requires Valid() && IsIdle(s, i)
      modifies this
      ensures Valid() && old(states) <= states && |s.calls| == old(|s.calls|) && s.calls[i] == Idle
      ensures Admitted(actor, result) && Ended(i, id, actor.userId, old(|steps|), result)
      ensures result.Done? || result.NotAllowed? || result.NotFound? || result.Conflict? || result.Failed?
      ensures result.Conflict? ==>
                Swaps(steps, i, old(|steps|)) == 50 && Interference(s.log, id, i, old(|s.log|)) >= 50
    {
      OwnerOf(actor);
      if !TaskOwner(actor).Owner? { return NotAllowed(TaskOwner(actor)); }
      ghost var start, from := |s.log|, |steps|;
      Take(ToggleBegin(i, actor, id));
      var attempt := 0;
      while attempt < MAX_TOGGLE_ATTEMPTS
        invariant Valid() && old(states) <= states && |s.calls| == old(|s.calls|)
        invariant attempt <= MAX_TOGGLE_ATTEMPTS && WroteNothing(states, steps, i, from, |steps|)
        invariant i < |s.calls| && s.calls[i] == ToggleNext(actor.userId, id, attempt, start)
        invariant Swaps(steps, i, from) == attempt
      {
        var alive: bool := *;
        if !alive {
          Take(Leave(i));
          return Failed;
        }
        result := ToggleRound(i, from);
        if !result.Conflict? { return; }
        attempt := attempt + 1;
      }
      GiveUp(i, from);
      return Conflict;
    }

    /** The end of the loop. */
    method GiveUp(i: nat, ghost from: nat)
      requires Valid() && i < |s.calls| && s.calls[i].ToggleNext? && s.calls[i].attempt == MAX_TOGGLE_ATTEMPTS
      requires WroteNothing(states, steps, i, from, |steps|)
      modifies this
      ensures Valid() && old(states) <= states && |s.calls| == old(|s.calls|) && s.calls[i] == Idle
      ensures WroteNothing(states, steps, i, from, |steps|) && Swaps(steps, i, from) == old(Swaps(steps, i, from))
      ensures Interference(s.log, old(s.calls[i].id), i, old(s.calls[i].start)) >= 50
    {
      ghost var acts := steps;
      Take(ToggleRead(i));
      ReachableInv(states, steps, |steps|);
      assert CallOk(s, i, s.calls[i]);
      assert steps[..|steps| - 1] == acts;
      ghost var more := steps;
      Take(Leave(i));
      assert steps[..|steps| - 1] == more;
    }

    /** Create: the new task is the actor's, has status created, the trimmed texts of the request and an id
        that was never in the table. */
    method Create(i: nat, actor: Claims, limits: Limits, title: string, description: string)
      returns (result: TaskResult, id: TaskId)
      requires Valid() && IsIdle(s, i)
      modifies this
      ensures Valid() && old(states) <= states && |s.calls| == old(|s.calls|) && s.calls[i] == Idle
      ensures Admitted(actor, result)
      ensures result.Done? || result.NotAllowed? || result.Rejected? || result.Failed?
      ensures result.Rejected? ==> TaskRefused(limits, title, description, result.reason)
      ensures result.Done? ==>
                && |states| > 1 && s.tasks == states[|states| - 2].tasks[id := result.task]
                && result.task == Task(TrimSpace(title), TrimSpace(description), Status.Created, actor.userId)
                && WellFormed(limits, result.task.title, result.task.description)
                && forall k :: 0 <= k < |states| - 1 ==> id !in states[k].tasks
      ensures !result.Done? ==> WroteNothing(states, steps, i, old(|steps|), |steps|)
      ensures result.Failed? ==> Aborted(steps, i)
    {
      OwnerOf(actor);
      if !TaskOwner(actor).Owner? { return NotAllowed(TaskOwner(actor)), 0; }
      AcceptedTask(limits, title, description);
      var texts := NormalizeNew(limits, title, description);
      if texts.Failure? { return Rejected(texts.error), 0; }
      var done, before := Attempt(i, Action.Create(i, actor, texts.value.0, texts.value.1), |steps|);
      if !done { return Failed, 0; }
      id := s.nextId - 1;
      NextIdIsNew(states, steps, |states| - 2);
      result := Done(s.tasks[id]);
    }

    /** Update: one statement writes the fields present, if the row is there and the actor's. */
    method Update(i: nat, actor: Claims, limits: Limits, id: TaskId, update: TaskUpdate) returns (result: TaskResult)
      requires Valid() && IsIdle(s, i)
      modifies this
      ensures Valid() && old(states) <= states && |s.calls| == old(|s.calls|) && s.calls[i] == Idle
      ensures Admitted(actor, result)
      ensures result.Done? || result.NotAllowed? || result.Rejected? || result.NotFound? || result.Failed?
      ensures result.Rejected? ==> EditRefused(limits, update, result.reason)
      ensures result.Done? ==>
                && |states| > 1 && Owned(states[|states| - 2], id, actor.userId)
                && Updates(states[|states| - 2].tasks[id], result.task, update)
                && s.tasks == states[|states| - 2].tasks[id := result.task]
      ensures result.NotFound? ==> AbsentSeen(states, old(|steps|), id, actor.userId)
      ensures !result.Done? ==> WroteNothing(states, steps, i, old(|steps|), |steps|)
      ensures result.Failed? ==> Aborted(steps, i)
    {
      OwnerOf(actor);
      if !TaskOwner(actor).Owner? { return NotAllowed(TaskOwner(actor)); }
      EditAnswers(limits, update);
      var edit := NormalizeUpdate(limits, update);
      if edit.Failure? { return Rejected(edit.error); }
      var done, before := Attempt(i, Action.Update(i, actor, id, edit.value), |steps|);
      if !done { return Failed; }
      assert !Owned(before, id, actor.userId) ==> !Owned(states[|steps| - 1], id, actor.userId);
      return if id in s.tasks && s.tasks[id].creator == actor.userId then Done(s.tasks[id]) else NotFound;
    }

    /** Delete: the ownership check and the DELETE are two statements, and either may fail. */
    method Delete(i: nat, actor: Claims, id: TaskId) returns (result: TaskResult)
      requires Valid() && IsIdle(s, i)
      modifies this
      ensures Valid() && old(states) <= states && |s.calls| == old(|s.calls|) && s.calls[i] == Idle
      ensures Admitted(actor, result)
      ensures result.Deleted? || result.NotAllowed? || result.NotFound? || result.Failed?
      ensures result.Deleted? ==>
                && |states| > 1 && Owned(states[|states| - 2], id, actor.userId)
                && s.tasks == states[|states| - 2].tasks - {id}
      ensures result.NotFound? ==> AbsentSeen(states, old(|steps|), id, actor.userId)
      ensures !result.Deleted? ==> WroteNothing(states, steps, i, old(|steps|), |steps|)
      ensures result.Failed? ==> Aborted(steps, i)
    {
      OwnerOf(actor);
      if !TaskOwner(actor).Owner? { return NotAllowed(TaskOwner(actor)); }
      ghost var from := |steps|;
      var done, before := Look(i, DeleteCheck(i, actor, id), from);
      if !done { return Failed; }
      if s.calls[i].Idle? {
        assert !Owned(states[|steps| - 1], id, actor.userId);
        return NotFound;
      }
      result := Remove(i, id, actor.userId, from);
    }

    /** The DELETE. */
    method Remove(i: nat, id: TaskId, owner: UserId, ghost from: nat) returns (result: TaskResult)
      requires Valid() && i < |s.calls| && s.calls[i] == DeleteChecked(owner, id)
      requires WroteNothing(states, steps, i, from, |steps|)
      modifies this
      ensures Valid() && old(states) <= states && |s.calls| == old(|s.calls|) && s.calls[i] == Idle
      ensures result.Deleted? || result.NotFound? || result.Failed?
      ensures result.Deleted? ==>
                |states| > 1 && Owned(states[|states| - 2], id, owner) && s.tasks == states[|states| - 2].tasks - {id}
      ensures result.NotFound? ==> AbsentSeen(states, from, id, owner)
      ensures !result.Deleted? ==> WroteNothing(states, steps, i, from, |steps|)
      ensures result.Failed? ==> Aborted(steps, i)
    {
      ghost var run, acts := states, steps;
      Others(i);
      OthersLeaveCall(states, steps, i, |acts|, |steps|);
      var alive: bool := *;
      var found := id in s.tasks;
      if alive {
        ReachableInv(states, steps, |steps|);
        assert CallOk(s, i, s.calls[i]);
        Take(DeleteRun(i));
      } else {
        Take(Leave(i));
      }
      StillNothing(run, acts, states, steps, i, from);
      if !alive { return Failed; }
      if found { return Deleted; }
      assert !Owned(states[|steps| - 1], id, owner);
      return NotFound;
    }
  }

  lemma LooksOnly(s: State, a: Action)
    requires Enabled(s, a) && (a.ToggleRead? || a.ToggleClassify? || a.DeleteCheck?)
    ensures Apply(s, a).tasks == s.tasks
  {
    match a
    case ToggleRead(i) =>
    case ToggleClassify(i) =>
    case DeleteCheck(i, actor, id) =>
  }

  lemma SwapMoves(s: State, i: nat)
    requires Enabled(s, ToggleSwap(i)) && Inv(s)
    ensures var c, t := s.calls[i], DoSwap(s, i);
            if t.calls[i] == Idle then
              && Owned(s, c.id, c.owner) && c.id in t.tasks && t.tasks == s.tasks[c.id := t.tasks[c.id]]
              && t.tasks[c.id] == s.tasks[c.id].(status := t.tasks[c.id].status)
              && Follows(s.tasks[c.id].status, t.tasks[c.id].status)
            else t.calls[i] == ToggleMissed(c.owner, c.id, c.attempt, c.start) && t.tasks == s.tasks
  {
  }
}
