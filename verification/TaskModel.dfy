/** Tasks: single-statement writes under concurrent callers. A call that needs more than one statement
    (delete, toggle) keeps its place in a `TaskCall`. The log records every write of a status. */
module TaskModel {
  import opened Wrappers

  type TaskId = nat
  type UserId = int

  /** domain.TaskStatus; `Other` is any string that is not one of the three. */
  datatype Status = Created | InProgress | Completed | Other(text: string)

  function NextStatus(current: Status): Status {
    match current
    case Created => InProgress
    case InProgress => Completed
    case Completed => Created
    case Other(_) => Created
  }

  predicate IsValidStatus(status: Status) {
    !status.Other?
  }

  datatype Task = Task(title: string, description: string, status: Status, creator: UserId)

  /** domain.TaskUpdate: absent fields are left unchanged. */
  datatype TaskUpdate = TaskUpdate(title: Option<string>, description: Option<string>, status: Option<Status>)

  function GetOr<T>(o: Option<T>, otherwise: T): T {
    if o.Some? then o.value else otherwise
  }

  /** The SET list of the UPDATE statement. */
  function Edited(task: Task, u: TaskUpdate): Task {
    Task(GetOr(u.title, task.title), GetOr(u.description, task.description), GetOr(u.status, task.status), task.creator)
  }

  datatype Claims = Claims(userId: UserId, isAdmin: bool)

  datatype OwnerResult = Owner(id: UserId) | Forbidden | Unauthorized

  /** Whose tasks the actor may act on: a user of the table; the administrator has no row there. */
  function TaskOwner(actor: Claims): OwnerResult {
    if actor.userId > 0 then Owner(actor.userId)
    else if actor.userId == 0 && actor.isAdmin then Forbidden
    else Unauthorized
  }

  const MAX_TOGGLE_ATTEMPTS: nat := 50

  /** A call in progress. `start` and `seenAt` are log positions: where the call began, and where it
      last read the task. */
  datatype TaskCall =
    | Idle
    | DeleteChecked(owner: UserId, id: TaskId)
    | ToggleNext(owner: UserId, id: TaskId, attempt: nat, start: nat)
    | ToggleSeen(owner: UserId, id: TaskId, attempt: nat, start: nat, from: Status, seenAt: nat)
    | ToggleMissed(owner: UserId, id: TaskId, attempt: nat, start: nat)
    | ToggleGaveUp(owner: UserId, id: TaskId, start: nat)

  datatype Write =
    | SetStatus(writer: nat, id: TaskId, was: Status, to: Status)
    | Toggled(writer: nat, id: TaskId, was: Status, to: Status)

  datatype State = State(tasks: map<TaskId, Task>, nextId: TaskId, calls: seq<TaskCall>, log: seq<Write>)

  predicate Initial(s: State) {
    && s.tasks == map[] && s.log == []
    && forall i :: 0 <= i < |s.calls| ==> s.calls[i] == Idle
  }

  datatype Action =
    | Create(i: nat, actor: Claims, title: string, description: string)
    | Update(i: nat, actor: Claims, id: TaskId, update: TaskUpdate)
    | DeleteCheck(i: nat, actor: Claims, id: TaskId)
    | DeleteRun(i: nat)
    | ToggleBegin(i: nat, actor: Claims, id: TaskId)
    | ToggleRead(i: nat)
    | ToggleSwap(i: nat)
    | ToggleClassify(i: nat)
    | Leave(i: nat)
    | DeleteUser(user: UserId)

  function Goto(s: State, i: nat, c: TaskCall): State
    requires i < |s.calls|
  {
    s.(calls := s.calls[i := c])
  }

  predicate IsIdle(s: State, i: nat) {
    i < |s.calls| && s.calls[i].Idle?
  }

  predicate Enabled(s: State, a: Action) {
    match a
    case Create(i, actor, _, _) => IsIdle(s, i) && TaskOwner(actor).Owner?
    // normalizeUpdate refuses a status that is not valid
    case Update(i, actor, _, u) =>
      IsIdle(s, i) && TaskOwner(actor).Owner? && (u.status.Some? ==> IsValidStatus(u.status.value))
    case DeleteCheck(i, actor, _) => IsIdle(s, i) && TaskOwner(actor).Owner?
    case DeleteRun(i) => i < |s.calls| && s.calls[i].DeleteChecked?
    case ToggleBegin(i, actor, _) => IsIdle(s, i) && TaskOwner(actor).Owner?
    case ToggleRead(i) => i < |s.calls| && s.calls[i].ToggleNext?
    case ToggleSwap(i) => i < |s.calls| && s.calls[i].ToggleSeen?
    case ToggleClassify(i) => i < |s.calls| && s.calls[i].ToggleMissed?
    // any statement may fail, or the context end, and a call that gave up returns its conflict
    case Leave(i) => i < |s.calls|
    case DeleteUser(_) => true
  }

  /** The UPDATE of one row, if it is there and the caller's. */
  function DoUpdate(s: State, i: nat, owner: UserId, id: TaskId, u: TaskUpdate): State {
    if id !in s.tasks || s.tasks[id].creator != owner then s
    else
      var t := s.(tasks := s.tasks[id := Edited(s.tasks[id], u)]);
      if u.status.None? then t
      else t.(log := s.log + [SetStatus(i, id, s.tasks[id].status, u.status.value)])
  }

  function DoCreate(s: State, i: nat, owner: UserId, title: string, description: string): State {
    s.(tasks := s.tasks[s.nextId := Task(title, description, Created, owner)],
       nextId := s.nextId + 1,
       log := s.log + [SetStatus(i, s.nextId, Created, Created)])
  }

  /** One round of the loop: GetByID and the ownership check, or giving up. */
  function DoRead(s: State, i: nat): State
    requires i < |s.calls| && s.calls[i].ToggleNext?
  {
    var ToggleNext(owner, id, attempt, start) := s.calls[i];
    if attempt >= MAX_TOGGLE_ATTEMPTS then Goto(s, i, ToggleGaveUp(owner, id, start))
    else if id !in s.tasks || s.tasks[id].creator != owner then Goto(s, i, Idle)
    else Goto(s, i, ToggleSeen(owner, id, attempt, start, s.tasks[id].status, |s.log|))
  }

  /** CompareAndSetStatus: one UPDATE guarded by id, creator and the status that was read. */
  function DoSwap(s: State, i: nat): State
    requires i < |s.calls| && s.calls[i].ToggleSeen?
  {
    var ToggleSeen(owner, id, attempt, start, from, _) := s.calls[i];
    if id in s.tasks && s.tasks[id].creator == owner && s.tasks[id].status == from then
      Goto(s, i, Idle).(
        tasks := s.tasks[id := s.tasks[id].(status := NextStatus(from))],
        log := s.log + [Toggled(i, id, from, NextStatus(from))])
    else Goto(s, i, ToggleMissed(owner, id, attempt, start))
  }

  /** classifyMissedTransition: a conflict goes round the loop, anything else ends the call. */
  function DoClassify(s: State, i: nat): State
    requires i < |s.calls| && s.calls[i].ToggleMissed?
  {
    var ToggleMissed(owner, id, attempt, start) := s.calls[i];
    if id in s.tasks && s.tasks[id].creator == owner then Goto(s, i, ToggleNext(owner, id, attempt + 1, start))
    else Goto(s, i, Idle)
  }

  function Apply(s: State, a: Action): State
    requires Enabled(s, a)
  {
    match a
    case Create(i, actor, title, description) => DoCreate(s, i, TaskOwner(actor).id, title, description)
    case Update(i, actor, id, u) => DoUpdate(s, i, TaskOwner(actor).id, id, u)
    case DeleteCheck(i, actor, id) =>
      if id in s.tasks && s.tasks[id].creator == TaskOwner(actor).id
      then Goto(s, i, DeleteChecked(TaskOwner(actor).id, id)) else s
    // DELETE FROM tasks WHERE id = $1: the owner is not checked again
    case DeleteRun(i) => Goto(s, i, Idle).(tasks := s.tasks - {s.calls[i].id})
    case ToggleBegin(i, actor, id) => Goto(s, i, ToggleNext(TaskOwner(actor).id, id, 0, |s.log|))
    case ToggleRead(i) => DoRead(s, i)
    case ToggleSwap(i) => DoSwap(s, i)
    case ToggleClassify(i) => DoClassify(s, i)
    case Leave(i) => Goto(s, i, Idle)
    case DeleteUser(user) => s.(tasks := map id | id in s.tasks && s.tasks[id].creator != user :: s.tasks[id])
  }

  predicate StepAt(states: seq<State>, steps: seq<Action>, k: int)
    requires |states| == |steps| + 1 && 0 <= k < |steps|
  {
    Enabled(states[k], steps[k]) && states[k + 1] == Apply(states[k], steps[k])
  }

  /** A run from an empty table. */
  predicate Behavior(states: seq<State>, steps: seq<Action>) {
    && |states| == |steps| + 1 && Initial(states[0])
    && forall k {:trigger StepAt(states, steps, k)} :: 0 <= k < |steps| ==> StepAt(states, steps, k)
  }

  function Caller(a: Action): Option<nat> {
    if a.DeleteUser? then None else Some(a.i)
  }
}
