/** Toggles are never lost, a toggle gives up only under real interference, and no call touches
    another user's task. */
module TaskTheorems {
  import opened Wrappers
  import opened TaskModel

  // ------------------------------------------------------------ reading the log

  /** `status` moved on by `k` transitions. */
  function Moved(status: Status, k: nat): Status {
    if k == 0 then status else NextStatus(Moved(status, k - 1))
  }

  /** The last status written absolutely, by a create or an update. */
  function Base(log: seq<Write>, id: TaskId): Status {
    if log == [] then Created
    else
      var e := log[|log| - 1];
      if e.id == id && e.SetStatus? then e.to else Base(log[..|log| - 1], id)
  }

  /** The successful toggles since then. */
  function Toggles(log: seq<Write>, id: TaskId): nat {
    if log == [] then 0
    else
      var e := log[|log| - 1];
      if e.id != id then Toggles(log[..|log| - 1], id)
      else if e.SetStatus? then 0
      else Toggles(log[..|log| - 1], id) + 1
  }

  function Expected(log: seq<Write>, id: TaskId): Status {
    Moved(Base(log, id), Toggles(log, id))
  }

  predicate ChangesFor(e: Write, id: TaskId, i: nat) {
    e.id == id && e.was != e.to && e.writer != i
  }

  /** How many writes since log position `from`, by callers other than `i`, changed the status of `id`. */
  function Interference(log: seq<Write>, id: TaskId, i: nat, from: nat): nat {
    if |log| <= from then 0
    else Interference(log[..|log| - 1], id, i, from) + (if ChangesFor(log[|log| - 1], id, i) then 1 else 0)
  }

  lemma ExpectedAppend(log: seq<Write>, e: Write, id: TaskId)
    ensures Base(log + [e], id) == if e.id == id && e.SetStatus? then e.to else Base(log, id)
    ensures Toggles(log + [e], id) ==
            if e.id != id then Toggles(log, id) else if e.SetStatus? then 0 else Toggles(log, id) + 1
    ensures Expected(log + [e], id) ==
            if e.id != id then Expected(log, id) else if e.SetStatus? then e.to else NextStatus(Expected(log, id))
  {
    assert (log + [e])[..|log|] == log;
  }

  lemma InterferenceAppend(log: seq<Write>, e: Write, id: TaskId, i: nat, from: nat)
    requires from <= |log|
    ensures Interference(log + [e], id, i, from)
            == Interference(log, id, i, from) + (if ChangesFor(e, id, i) then 1 else 0)
  {
    assert (log + [e])[..|log|] == log;
  }

  // ------------------------------------------------------------ the invariant

  ghost predicate TasksOk(s: State) {
    && (forall id :: id in s.tasks ==>
          id < s.nextId && IsValidStatus(s.tasks[id].status) && s.tasks[id].status == Expected(s.log, id))
    && (forall k :: 0 <= k < |s.log| ==> s.log[k].id < s.nextId)
  }

  /** What a call knows between its statements. A toggle that missed has been interfered with once more
      than it has counted, unless its task is gone for good. */
  ghost predicate CallOk(s: State, i: nat, c: TaskCall) {
    match c
    case Idle => true
    case DeleteChecked(owner, id) => id < s.nextId && (id in s.tasks ==> s.tasks[id].creator == owner)
    case ToggleNext(owner, id, attempt, start) =>
      start <= |s.log| && attempt <= MAX_TOGGLE_ATTEMPTS && Interference(s.log, id, i, start) >= attempt
    case ToggleSeen(owner, id, attempt, start, from, seenAt) =>
      && start <= |s.log| && attempt < MAX_TOGGLE_ATTEMPTS && id < s.nextId
      && Interference(s.log, id, i, start) >= attempt
      && (id in s.tasks ==> s.tasks[id].creator == owner)
      && (id in s.tasks && s.tasks[id].status != from ==> Interference(s.log, id, i, start) > attempt)
    case ToggleMissed(owner, id, attempt, start) =>
      && start <= |s.log| && attempt < MAX_TOGGLE_ATTEMPTS && id < s.nextId
      && (id in s.tasks ==> Interference(s.log, id, i, start) > attempt)
    case ToggleGaveUp(owner, id, start) =>
      start <= |s.log| && Interference(s.log, id, i, start) >= MAX_TOGGLE_ATTEMPTS
  }

  ghost predicate Inv(s: State) {
    TasksOk(s) && forall i: nat :: i < |s.calls| ==> CallOk(s, i, s.calls[i])
  }

  /** A step may add one write, or remove tasks, or create one; it changes no creator. */
  ghost predicate Evolves(s: State, t: State, writer: nat) {
    && s.nextId <= t.nextId
    && (forall id :: id in t.tasks && id < s.nextId ==> id in s.tasks && t.tasks[id].creator == s.tasks[id].creator)
    && (|| t.log == s.log
        || (&& |t.log| == |s.log| + 1 && t.log[..|s.log|] == s.log && t.log[|s.log|].writer == writer
            && (t.log[|s.log|].id in s.tasks ==> t.log[|s.log|].was == s.tasks[t.log[|s.log|].id].status)))
    && (forall id :: id in t.tasks && id in s.tasks && t.tasks[id].status != s.tasks[id].status ==>
          |t.log| == |s.log| + 1 && t.log[|s.log|].id == id && t.log[|s.log|].was != t.log[|s.log|].to)
  }

  lemma StepEvolves(s: State, a: Action)
    requires TasksOk(s) && Enabled(s, a)
    ensures Evolves(s, Apply(s, a), if a.DeleteUser? then 0 else a.i)
  {
  }

  /** A step of another caller keeps what call `j` knows. */
  lemma CallKeeps(s: State, t: State, writer: nat, j: nat, c: TaskCall)
    requires CallOk(s, j, c) && Evolves(s, t, writer) && (writer != j || t.log == s.log)
    ensures CallOk(t, j, c)
  {
    if t.log != s.log {
      assert t.log == s.log + [t.log[|s.log|]];
      if !c.Idle? && !c.DeleteChecked? { InterferenceAppend(s.log, t.log[|s.log|], c.id, j, c.start); }
    }
  }

  lemma TasksStep(s: State, a: Action)
    requires TasksOk(s) && Enabled(s, a)
    requires a.ToggleSwap? ==> CallOk(s, a.i, s.calls[a.i])
    ensures TasksOk(Apply(s, a))
  {
    var t := Apply(s, a);
    if t.log != s.log {
      var e := t.log[|s.log|];
      assert t.log == s.log + [e];
      forall id | id in t.tasks
        ensures id < t.nextId && IsValidStatus(t.tasks[id].status) && t.tasks[id].status == Expected(t.log, id)
      {
        ExpectedAppend(s.log, e, id);
      }
    }
  }

  /** The call that takes the step knows what its next program point needs. */
  lemma OwnCall(s: State, a: Action)
    requires TasksOk(s) && Enabled(s, a) && !a.DeleteUser? && CallOk(s, a.i, s.calls[a.i])
    ensures CallOk(Apply(s, a), a.i, Apply(s, a).calls[a.i])
  {
  }

  lemma StepInv(s: State, a: Action)
    requires Inv(s) && Enabled(s, a)
    ensures Inv(Apply(s, a))
  {
    var t := Apply(s, a);
    TasksStep(s, a);
    StepEvolves(s, a);
    forall j: nat | j < |t.calls| ensures CallOk(t, j, t.calls[j]) {
      if !a.DeleteUser? && a.i == j {
        OwnCall(s, a);
      } else {
        CallKeeps(s, t, if a.DeleteUser? then 0 else a.i, j, s.calls[j]);
      }
    }
  }

  lemma {:induction false} ReachableInv(states: seq<State>, steps: seq<Action>, k: nat)
    requires Behavior(states, steps) && k < |states|
    ensures Inv(states[k])
  {
    if k > 0 {
      ReachableInv(states, steps, k - 1);
      assert StepAt(states, steps, k - 1);
      StepInv(states[k - 1], steps[k - 1]);
    }
  }

  // ------------------------------------------------------------ toggles are never lost

  /** The step sets the status of `id` without looking at it. */
  predicate SetsStatus(s: State, a: Action, id: TaskId) {
    a.Update? && a.id == id && a.update.status.Some? && TaskOwner(a.actor).Owner?
    && id in s.tasks && s.tasks[id].creator == TaskOwner(a.actor).id
  }

  /** The step is a toggle of `id` that returns success to its caller. */
  predicate WinsToggle(s: State, a: Action, t: State, id: TaskId) {
    && a.ToggleSwap? && a.i < |s.calls| && a.i < |t.calls|
    && s.calls[a.i].ToggleSeen? && s.calls[a.i].id == id && t.calls[a.i].Idle?
  }

  function Wins(states: seq<State>, steps: seq<Action>, id: TaskId, j: nat, k: nat): nat
    requires |states| == |steps| + 1 && j <= k <= |steps|
  {
    if j == k then 0
    else Wins(states, steps, id, j, k - 1) + (if WinsToggle(states[k - 1], steps[k - 1], states[k], id) then 1 else 0)
  }

  lemma StatusAfterStep(s: State, a: Action, id: TaskId)
    requires Enabled(s, a) && id in s.tasks && id < s.nextId && id in Apply(s, a).tasks && !SetsStatus(s, a, id)
    ensures Apply(s, a).tasks[id].status
            == if WinsToggle(s, a, Apply(s, a), id) then NextStatus(s.tasks[id].status) else s.tasks[id].status
  {
  }

  /** Ids are never reused, so a task that is there was there all the time since it was created. */
  lemma {:induction false} StaysGone(states: seq<State>, steps: seq<Action>, id: TaskId, j: nat, k: nat)
    requires Behavior(states, steps) && j <= k < |states| && id < states[j].nextId && id in states[k].tasks
    ensures id < states[k].nextId && id in states[j].tasks && states[j].tasks[id].creator == states[k].tasks[id].creator
    decreases k - j
  {
    ReachableInv(states, steps, j);
    if j < k {
      assert StepAt(states, steps, j);
      StepEvolves(states[j], steps[j]);
      StaysGone(states, steps, id, j + 1, k);
    }
  }

  lemma {:induction false} StaysFrom(states: seq<State>, steps: seq<Action>, id: TaskId, j: nat, k: nat)
    requires Behavior(states, steps) && j <= k < |states| && id < states[j].nextId
    ensures id < states[k].nextId
  {
    if j < k {
      StaysFrom(states, steps, id, j, k - 1);
      ReachableInv(states, steps, k - 1);
      assert StepAt(states, steps, k - 1);
      StepEvolves(states[k - 1], steps[k - 1]);
    }
  }

  /** A task that is there at both ends of a stretch is there just before its last step. */
  lemma StillThere(states: seq<State>, steps: seq<Action>, id: TaskId, j: nat, k: nat)
    requires Behavior(states, steps) && j < k < |states|
    requires id in states[j].tasks && id in states[k].tasks
    ensures id in states[k - 1].tasks && id < states[k - 1].nextId
  {
    ReachableInv(states, steps, j);
    StaysFrom(states, steps, id, j, k - 1);
    StaysGone(states, steps, id, k - 1, k);
  }

  lemma LastStep(states: seq<State>, steps: seq<Action>, id: TaskId, k: nat)
    requires Behavior(states, steps) && 0 < k < |states|
    requires id in states[k - 1].tasks && id < states[k - 1].nextId && id in states[k].tasks
    requires !SetsStatus(states[k - 1], steps[k - 1], id)
    ensures states[k].tasks[id].status
            == if WinsToggle(states[k - 1], steps[k - 1], states[k], id)
               then NextStatus(states[k - 1].tasks[id].status) else states[k - 1].tasks[id].status
  {
    assert StepAt(states, steps, k - 1);
    StatusAfterStep(states[k - 1], steps[k - 1], id);
  }

  /** From any point of any run: while no update sets the status of a task, its status is as many
      transitions on as toggles of it have succeeded, whatever came between their reads and writes. */
  lemma {:induction false} TogglesNeverLost(states: seq<State>, steps: seq<Action>, id: TaskId, j: nat, k: nat)
    requires Behavior(states, steps) && j <= k < |states|
    requires id in states[j].tasks && id in states[k].tasks
    requires forall m :: j <= m < k ==> !SetsStatus(states[m], steps[m], id)
    ensures states[k].tasks[id].status == Moved(states[j].tasks[id].status, Wins(states, steps, id, j, k))
    decreases k
  {
    if j < k {
      StillThere(states, steps, id, j, k);
      TogglesNeverLost(states, steps, id, j, k - 1);
      LastStep(states, steps, id, k);
    }
  }

  /** Every status in the table is valid, and is what the log of writes says: the last absolute write
      moved on by the toggles after it. */
  lemma StatusIsBasePlusToggles(states: seq<State>, steps: seq<Action>, id: TaskId, k: nat)
    requires Behavior(states, steps) && k < |states| && id in states[k].tasks
    ensures IsValidStatus(states[k].tasks[id].status)
    ensures states[k].tasks[id].status == Moved(Base(states[k].log, id), Toggles(states[k].log, id))
  {
    ReachableInv(states, steps, k);
  }

  /** `to` follows `was` in the cycle created, in progress, completed. */
  predicate Follows(was: Status, to: Status) {
    || (was == Created && to == InProgress)
    || (was == InProgress && to == Completed)
    || (was == Completed && to == Created)
  }

  /** Three transitions lead back: a status can be read, left and reached again before the swap. */
  lemma StatusCycles(status: Status)
    requires IsValidStatus(status)
    ensures Follows(status, NextStatus(status))
    ensures Moved(status, 3) == status && Moved(status, 1) != status && Moved(status, 2) != status
  {
    assert Moved(status, 0) == status;
    assert Moved(status, 1) == NextStatus(status);
    assert Moved(status, 2) == NextStatus(NextStatus(status));
  }

  // ------------------------------------------------------------ bounded interference

  /** A toggle reports its conflict only if at least fifty writes by other callers changed the status
      of that very task while the call was running. */
  lemma GivesUpOnlyUnderInterference(states: seq<State>, steps: seq<Action>, k: nat, i: nat)
    requires Behavior(states, steps) && k < |states| && i < |states[k].calls| && states[k].calls[i].ToggleGaveUp?
    ensures var c := states[k].calls[i];
            c.start <= |states[k].log| && Interference(states[k].log, c.id, i, c.start) >= 50
  {
    ReachableInv(states, steps, k);
  }

  // ------------------------------------------------------------ ownership

  /** On whose behalf a step of a task call is taken. */
  function Requester(s: State, a: Action): Option<UserId>
    requires Enabled(s, a)
  {
    match a
    case Create(_, actor, _, _) => Some(TaskOwner(actor).id)
    case Update(_, actor, _, _) => Some(TaskOwner(actor).id)
    case DeleteCheck(_, actor, _) => Some(TaskOwner(actor).id)
    case ToggleBegin(_, actor, _) => Some(TaskOwner(actor).id)
    case DeleteUser(_) => None
    case _ => if s.calls[a.i].Idle? then None else Some(s.calls[a.i].owner)
  }

  /** No interleaving lets a task call change or delete a row created by anyone but its actor, though
      a delete checks the owner in one statement and deletes by id alone in another. */
  lemma OnlyTheOwnerTouches(states: seq<State>, steps: seq<Action>, k: nat, id: TaskId)
    requires Behavior(states, steps) && k < |steps| && !steps[k].DeleteUser?
    requires id in states[k].tasks
    requires id !in states[k + 1].tasks || states[k + 1].tasks[id] != states[k].tasks[id]
    ensures StepAt(states, steps, k)
    ensures Requester(states[k], steps[k]) == Some(states[k].tasks[id].creator)
  {
    ReachableInv(states, steps, k);
    assert StepAt(states, steps, k);
    assert CallOk(states[k], steps[k].i, states[k].calls[steps[k].i]);
  }
}
