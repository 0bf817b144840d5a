/** Partial edits of a task: which are accepted, and what concurrent ones leave of each other. */
module TaskEdits {
  import opened Wrappers
  import opened Text
  import opened TaskModel
  import opened TaskTheorems

  datatype Limits = Limits(maxTitle: int, maxDescription: int)

  datatype Invalid = EmptyEdit | EmptyTitle | TitleTooLong | DescriptionTooLong | UnknownStatus

  predicate IsEmpty(u: TaskUpdate) {
    u.title.None? && u.description.None? && u.status.None?
  }

  function Trimmed(o: Option<string>): Option<string> {
    if o.Some? then Some(TrimSpace(o.value)) else None
  }

  /** normalizeUpdate: the first thing wrong, or the edit with its texts trimmed. */
  function NormalizeUpdate(limits: Limits, u: TaskUpdate): Result<TaskUpdate, Invalid> {
    var title, description := Trimmed(u.title), Trimmed(u.description);
    if IsEmpty(u) then Failure(EmptyEdit)
    else if title == Some("") then Failure(EmptyTitle)
    else if title.Some? && |title.value| > limits.maxTitle then Failure(TitleTooLong)
    else if description.Some? && |description.value| > limits.maxDescription then Failure(DescriptionTooLong)
    else if u.status.Some? && !IsValidStatus(u.status.value) then Failure(UnknownStatus)
    else Success(TaskUpdate(title, description, u.status))
  }

  /** validateTaskFields on the trimmed texts of a new task. */
  function NormalizeNew(limits: Limits, title: string, description: string): Result<(string, string), Invalid> {
    var t, d := TrimSpace(title), TrimSpace(description);
    if t == "" then Failure(EmptyTitle)
    else if |t| > limits.maxTitle then Failure(TitleTooLong)
    else if |d| > limits.maxDescription then Failure(DescriptionTooLong)
    else Success((t, d))
  }

  /** Texts as the table keeps them. */
  predicate WellFormed(limits: Limits, title: string, description: string) {
    && NoSpaceAround(title) && |title| <= limits.maxTitle
    && (description == "" || NoSpaceAround(description)) && |description| <= limits.maxDescription
  }

  /** Which requests each refusal answers: the first that applies, in this order. */
  ghost predicate EditRefused(limits: Limits, u: TaskUpdate, reason: Invalid) {
    var empty := u.title == None && u.description == None && u.status == None;
    var noTitle := u.title.Some? && TrimSpace(u.title.value) == "";
    var longTitle := u.title.Some? && |TrimSpace(u.title.value)| > limits.maxTitle;
    var longDescription := u.description.Some? && |TrimSpace(u.description.value)| > limits.maxDescription;
    match reason
    case EmptyEdit => empty
    case EmptyTitle => !empty && noTitle
    case TitleTooLong => !noTitle && longTitle
    case DescriptionTooLong => !noTitle && !longTitle && longDescription
    case UnknownStatus => !noTitle && !longTitle && !longDescription && u.status.Some? && u.status.value.Other?
  }

  /** What an accepted edit leaves of a task: the trimmed texts and the status of the request where they are
      present, and everything else as it was. */
  ghost predicate Updates(before: Task, after: Task, u: TaskUpdate) {
    && (u.title.Some? ==> after.title == TrimSpace(u.title.value))
    && (u.title.None? ==> after.title == before.title)
    && (u.description.Some? ==> after.description == TrimSpace(u.description.value))
    && (u.description.None? ==> after.description == before.description)
    && (u.status.Some? ==> after.status == u.status.value)
    && (u.status.None? ==> after.status == before.status)
    && after.creator == before.creator
  }

  /** An edit is refused for the first thing wrong with it, and accepted exactly if nothing is. */
  lemma EditAnswers(limits: Limits, u: TaskUpdate)
    ensures NormalizeUpdate(limits, u).Failure? ==> EditRefused(limits, u, NormalizeUpdate(limits, u).error)
    ensures NormalizeUpdate(limits, u).Success? <==> forall reason :: !EditRefused(limits, u, reason)
    ensures NormalizeUpdate(limits, u).Success? ==>
              forall task: Task :: Updates(task, Edited(task, NormalizeUpdate(limits, u).value), u)
  {
    if NormalizeUpdate(limits, u).Failure? {
      assert EditRefused(limits, u, NormalizeUpdate(limits, u).error);
    } else {
      forall reason ensures !EditRefused(limits, u, reason) {
        match reason
        case EmptyEdit => case EmptyTitle => case TitleTooLong => case DescriptionTooLong => case UnknownStatus =>
      }
    }
  }

  /** An accepted edit mentions the fields the request did, fits what the table may hold, and is accepted
      unchanged when it is sent again. */
  lemma AcceptedEdit(limits: Limits, u: TaskUpdate)
    requires NormalizeUpdate(limits, u).Success?
    ensures var v := NormalizeUpdate(limits, u).value;
            && (v.title.Some? <==> u.title.Some?) && (v.description.Some? <==> u.description.Some?)
            && v.status == u.status
            && NormalizeUpdate(limits, v) == Success(v)
            && forall task: Task :: WellFormed(limits, task.title, task.description) && IsValidStatus(task.status) ==>
                 && WellFormed(limits, Edited(task, v).title, Edited(task, v).description)
                 && IsValidStatus(Edited(task, v).status)
  {
    if u.title.Some? { TrimmedOnce(u.title.value); }
    if u.description.Some? { TrimmedOnce(u.description.value); }
  }

  /** Which new tasks each refusal answers. */
  ghost predicate TaskRefused(limits: Limits, title: string, description: string, reason: Invalid) {
    var t, d := TrimSpace(title), TrimSpace(description);
    match reason
    case EmptyTitle => t == ""
    case TitleTooLong => t != "" && |t| > limits.maxTitle
    case DescriptionTooLong => t != "" && |t| <= limits.maxTitle && |d| > limits.maxDescription
    case _ => false
  }

  /** A new task is refused for the first thing wrong with it; an accepted one has the trimmed texts. */
  lemma AcceptedTask(limits: Limits, title: string, description: string)
    ensures var r := NormalizeNew(limits, title, description);
            && (r.Failure? ==> TaskRefused(limits, title, description, r.error))
            && (r.Success? <==> forall reason :: !TaskRefused(limits, title, description, reason))
            && (r.Success? ==> r.value == (TrimSpace(title), TrimSpace(description)))
            && (r.Success? ==> WellFormed(limits, r.value.0, r.value.1))
  {
    TrimmedOnce(title);
    TrimmedOnce(description);
    var r := NormalizeNew(limits, title, description);
    if r.Failure? {
      assert TaskRefused(limits, title, description, r.error);
    } else {
      forall reason ensures !TaskRefused(limits, title, description, reason) {
        match reason
        case EmptyEdit => case EmptyTitle => case TitleTooLong => case DescriptionTooLong => case UnknownStatus =>
      }
    }
  }

  // ------------------------------------------------------------ edits of different fields

  /** The step is an update that writes the title, or the description, of `id`. */
  predicate WritesTitle(s: State, a: Action, id: TaskId) {
    a.Update? && a.id == id && a.update.title.Some? && TaskOwner(a.actor).Owner?
    && id in s.tasks && s.tasks[id].creator == TaskOwner(a.actor).id
  }

  predicate WritesDescription(s: State, a: Action, id: TaskId) {
    a.Update? && a.id == id && a.update.description.Some? && TaskOwner(a.actor).Owner?
    && id in s.tasks && s.tasks[id].creator == TaskOwner(a.actor).id
  }

  lemma TextsAfterStep(s: State, a: Action, id: TaskId)
    requires Enabled(s, a) && id in s.tasks && id < s.nextId && id in Apply(s, a).tasks
    ensures var before, after := s.tasks[id], Apply(s, a).tasks[id];
            && after.title == (if WritesTitle(s, a, id) then a.update.title.value else before.title)
            && after.description
               == (if WritesDescription(s, a, id) then a.update.description.value else before.description)
  {
  }

  lemma LastTexts(states: seq<State>, steps: seq<Action>, id: TaskId, k: nat)
    requires Behavior(states, steps) && 0 < k < |states|
    requires id in states[k - 1].tasks && id < states[k - 1].nextId && id in states[k].tasks
    ensures !WritesTitle(states[k - 1], steps[k - 1], id) ==> states[k].tasks[id].title == states[k - 1].tasks[id].title
    ensures !WritesDescription(states[k - 1], steps[k - 1], id) ==>
              states[k].tasks[id].description == states[k - 1].tasks[id].description
  {
    assert StepAt(states, steps, k - 1);
    TextsAfterStep(states[k - 1], steps[k - 1], id);
  }

  /** Whatever else happens in between, edits of the status or description and toggles included, a title
      stays what it was while no update writes a title. */
  lemma {:induction false} TitleStays(states: seq<State>, steps: seq<Action>, id: TaskId, j: nat, k: nat)
    requires Behavior(states, steps) && j <= k < |states| && id in states[j].tasks && id in states[k].tasks
    requires forall m :: j <= m < k ==> !WritesTitle(states[m], steps[m], id)
    ensures states[k].tasks[id].title == states[j].tasks[id].title
    decreases k
  {
    if j < k {
      StillThere(states, steps, id, j, k);
      TitleStays(states, steps, id, j, k - 1);
      LastTexts(states, steps, id, k);
    }
  }

  lemma {:induction false} DescriptionStays(states: seq<State>, steps: seq<Action>, id: TaskId, j: nat, k: nat)
    requires Behavior(states, steps) && j <= k < |states| && id in states[j].tasks && id in states[k].tasks
    requires forall m :: j <= m < k ==> !WritesDescription(states[m], steps[m], id)
    ensures states[k].tasks[id].description == states[j].tasks[id].description
    decreases k
  {
    if j < k {
      StillThere(states, steps, id, j, k);
      DescriptionStays(states, steps, id, j, k - 1);
      LastTexts(states, steps, id, k);
    }
  }

  /** An id that is still to be given out was never in the table. */
  lemma NextIdIsNew(states: seq<State>, steps: seq<Action>, k: nat)
    requires Behavior(states, steps) && k < |states|
    ensures forall j :: 0 <= j <= k ==> states[k].nextId !in states[j].tasks
  {
    forall j | 0 <= j <= k ensures states[k].nextId !in states[j].tasks {
      ReachableInv(states, steps, j);
      if states[k].nextId in states[j].tasks { StaysFrom(states, steps, states[k].nextId, j, k); }
    }
  }
}
