/** How a run of the server ends: awaitStop, Drain and the deferred actions, against listeners,
    shutdown calls and the cleanup goroutine that finish in any order. */
module Shutdown {
  import opened Wrappers

  /** An error, or nil. */
  type Error = Option<nat>

  /** A one-shot channel of capacity one: its sender has not sent, has sent, or was received from.
      A listener that was never started has no sender. */
  datatype Channel = NoSender | Waiting | Sent(err: Error) | Received(err: Error)

  /** One server handed to Drain: its goroutine was not started, is inside ShutdownWithContext, has
      put the result into the buffer, or was collected. */
  datatype Server = Untouched | Stopping | Returned(err: Error) | Collected(err: Error)

  /** The deferred actions of run, in the order it defers them. */
  datatype Deferred = StopSignals | AbandonInFlight | ClosePool | WaitCleanup | StopCleanup

  const DEFERRED: nat := 5

  /** The action run defers as its `k`-th. */
  function Deferral(k: nat): Deferred {
    if k <= 1 then StopSignals
    else if k == 2 then AbandonInFlight
    else if k == 3 then ClosePool
    else if k == 4 then WaitCleanup
    else StopCleanup
  }

  datatype Point =
    | Selecting
    | Starting(next: nat)            // Drain: the loop that starts the goroutines
    | Collecting(left: nat)          // Drain: the loop that receives their results
    | Cancelling                     // Drain: cancelInFlight
    | AwaitServe
    | AwaitMetrics
    | Unwinding(left: nat)           // deferred actions still to run
    | Exited

  datatype State = State(
    at: Point,
    signalled: bool,
    serve: Channel,
    metrics: Channel,
    servers: seq<Server>,
    nilServers: set<nat>,
    requestsCancelled: bool,
    cleanupStopped: bool,
    cleanupDone: bool,
    poolClosed: bool,
    serveReported: bool,
    metricsReported: bool,
    exitErr: Error,
    problems: seq<nat>,
    // history
    drains: nat,
    serveReceipts: nat,
    metricsReceipts: nat)

  /** Serving, with `n` servers for Drain; the metrics listener may not have been started. */
  predicate Initial(s: State) {
    && s.at == Selecting && !s.signalled
    && s.serve == Waiting && (s.metrics == Waiting || s.metrics == NoSender)
    && (forall k :: 0 <= k < |s.servers| ==> s.servers[k] == Untouched)
    && !s.requestsCancelled && !s.cleanupStopped && !s.cleanupDone && !s.poolClosed
    && !s.serveReported && !s.metricsReported && s.exitErr == None && s.problems == []
    && s.drains == 0 && s.serveReceipts == 0 && s.metricsReceipts == 0
  }

  predicate HasMetrics(s: State) {
    s.metrics != NoSender
  }

  datatype Action =
    // what happens around run
    | Signal
    | ServeReports(err: Error)
    | MetricsReports(err: Error)
    | ShutdownReturns(k: nat, err: Error)
    | CleanupExits
    // run itself
    | SelectSignal
    | SelectServe
    | SelectMetrics
    | StartNext
    | Collect(k: nat)
    | CancelInFlight
    | ReceiveServe
    | ReceiveMetrics
    | RunDeferred

  function SelectOn(s: State, err: Error): State {
    s.(at := Starting(0), exitErr := err, drains := s.drains + 1)
  }

  /** The cleanup context ends with the signal or with stopCleanup. */
  predicate CleanupCancelled(s: State) {
    s.signalled || s.cleanupStopped
  }

  /** Waiting for the cleanup goroutine blocks until it is done. */
  predicate CanRunDeferred(s: State) {
    s.at.Unwinding? && (s.at.left > 0 && Deferral(s.at.left) == WaitCleanup ==> s.cleanupDone)
  }

  predicate Enabled(s: State, a: Action) {
    match a
    case Signal => !s.signalled
    case ServeReports(_) => s.serve == Waiting
    case MetricsReports(_) => s.metrics == Waiting
    case ShutdownReturns(k, _) => k < |s.servers| && s.servers[k] == Stopping
    case CleanupExits => CleanupCancelled(s) && !s.cleanupDone
    case SelectSignal => s.at == Selecting && s.signalled
    case SelectServe => s.at == Selecting && s.serve.Sent?
    case SelectMetrics => s.at == Selecting && s.metrics.Sent?
    case StartNext => s.at.Starting?
    case Collect(k) => CanCollect(s, k)
    case CancelInFlight => s.at == Cancelling
    case ReceiveServe => s.at == AwaitServe && (s.serveReported || s.serve.Sent?)
    case ReceiveMetrics => s.at == AwaitMetrics && (!HasMetrics(s) || s.metricsReported || s.metrics.Sent?)
    case RunDeferred => CanRunDeferred(s)
  }

  /** What a deferred action does, if anything the rest of the model can see. */
  function Deferring(s: State, d: Deferred): (t: State)
    ensures t.servers == s.servers && t.problems == s.problems && t.nilServers == s.nilServers
    ensures t.exitErr == s.exitErr
  {
    s.(requestsCancelled := s.requestsCancelled || d == AbandonInFlight,
       poolClosed := s.poolClosed || d == ClosePool,
       cleanupStopped := s.cleanupStopped || d == StopCleanup)
  }

  function Collecting0(s: State): Point {
    if |s.servers| == 0 then Cancelling else Collecting(|s.servers|)
  }

  function DoSelectServe(s: State): (t: State)
    requires s.serve.Sent?
    ensures t.servers == s.servers && t.problems == s.problems && t.nilServers == s.nilServers
  {
    SelectOn(s, s.serve.err).(serve := Received(s.serve.err), serveReported := true,
                              serveReceipts := s.serveReceipts + 1)
  }

  function DoSelectMetrics(s: State): (t: State)
    requires s.metrics.Sent?
    ensures t.servers == s.servers && t.problems == s.problems && t.nilServers == s.nilServers
  {
    SelectOn(s, s.metrics.err).(metrics := Received(s.metrics.err), metricsReported := true,
                                metricsReceipts := s.metricsReceipts + 1)
  }

  /** What a goroutine's slot holds once the starting loop passed it. */
  function Begin(s: State, k: nat): Server {
    if k in s.nilServers then Returned(None) else Stopping
  }

  /** A nil server reports nil at once; any other gets a goroutine that calls its shutdown. */
  function DoStartNext(s: State): State
    requires s.at.Starting?
  {
    var k := s.at.next;
    if k >= |s.servers| then s.(at := Collecting0(s))
    else s.(at := Starting(k + 1), servers := s.servers[k := Begin(s, k)])
  }

  predicate CanCollect(s: State, k: nat) {
    s.at.Collecting? && s.at.left > 0 && k < |s.servers| && s.servers[k].Returned?
  }

  function DoCollect(s: State, k: nat): State
    requires CanCollect(s, k)
  {
    var err := s.servers[k].err;
    s.(at := if s.at.left == 1 then Cancelling else Collecting(s.at.left - 1),
       servers := s.servers[k := Collected(err)],
       problems := if err.Some? then s.problems + [err.value] else s.problems)
  }

  /** Receives a report only if it was not the reason to stop. */
  function DoReceiveServe(s: State): (t: State)
    requires s.serveReported || s.serve.Sent?
    ensures t.servers == s.servers && t.problems == s.problems && t.nilServers == s.nilServers
    ensures t.exitErr == s.exitErr
  {
    var u := s.(at := AwaitMetrics);
    if s.serveReported then u else u.(serve := Received(s.serve.err), serveReceipts := s.serveReceipts + 1)
  }

  function DoReceiveMetrics(s: State): (t: State)
    requires !HasMetrics(s) || s.metricsReported || s.metrics.Sent?
    ensures t.servers == s.servers && t.problems == s.problems && t.nilServers == s.nilServers
    ensures t.exitErr == s.exitErr
  {
    var u := s.(at := Unwinding(DEFERRED));
    if !HasMetrics(s) || s.metricsReported then u
    else u.(metrics := Received(s.metrics.err), metricsReceipts := s.metricsReceipts + 1)
  }

  function DoRunDeferred(s: State): (t: State)
    requires s.at.Unwinding?
    ensures t.servers == s.servers && t.problems == s.problems && t.nilServers == s.nilServers
    ensures t.exitErr == s.exitErr
  {
    if s.at.left == 0 then s.(at := Exited)
    else Deferring(s, Deferral(s.at.left)).(at := Unwinding(s.at.left - 1))
  }

  function Apply(s: State, a: Action): State
    requires Enabled(s, a)
  {
    match a
    case Signal => s.(signalled := true)
    case ServeReports(err) => s.(serve := Sent(err))
    case MetricsReports(err) => s.(metrics := Sent(err))
    case ShutdownReturns(k, err) => s.(servers := s.servers[k := Returned(err)])
    case CleanupExits => s.(cleanupDone := true)
    case SelectSignal => SelectOn(s, None)
    case SelectServe => DoSelectServe(s)
    case SelectMetrics => DoSelectMetrics(s)
    case StartNext => DoStartNext(s)
    case Collect(k) => DoCollect(s, k)
    case CancelInFlight => s.(at := AwaitServe, requestsCancelled := true)
    case ReceiveServe => DoReceiveServe(s)
    case ReceiveMetrics => DoReceiveMetrics(s)
    case RunDeferred => DoRunDeferred(s)
  }

  predicate StepAt(states: seq<State>, steps: seq<Action>, k: int)
    requires |states| == |steps| + 1 && 0 <= k < |steps|
  {
    Enabled(states[k], steps[k]) && states[k + 1] == Apply(states[k], steps[k])
  }

  predicate Behavior(states: seq<State>, steps: seq<Action>) {
    && |states| == |steps| + 1 && Initial(states[0])
    && forall k {:trigger StepAt(states, steps, k)} :: 0 <= k < |steps| ==> StepAt(states, steps, k)
  }

  // ------------------------------------------------------------ the invariant

  /** The number of servers not collected yet. */
  function Uncollected(servers: seq<Server>): nat {
    if servers == [] then 0 else (if servers[0].Collected? then 0 else 1) + Uncollected(servers[1..])
  }

  predicate Finished(server: Server) {
    server.Returned? || server.Collected?
  }

  predicate Begun(p: Point) {
    !p.Selecting?
  }

  /** Drain has returned. */
  predicate Drained(p: Point) {
    p.AwaitServe? || p.AwaitMetrics? || p.Unwinding? || p.Exited?
  }

  /** How far the deferred actions have come: `k` of them are left. */
  predicate AtMostLeft(p: Point, k: nat) {
    p.Exited? || (p.Unwinding? && p.left <= k)
  }

  ghost predicate ServersOk(p: Point, servers: seq<Server>) {
    match p
    case Selecting => forall k :: 0 <= k < |servers| ==> servers[k] == Untouched
    case Starting(next) =>
      && next <= |servers|
      && (forall k :: 0 <= k < next ==> servers[k] == Stopping || servers[k].Returned?)
      && (forall k :: next <= k < |servers| ==> servers[k] == Untouched)
    case Collecting(left) =>
      && left > 0 && Uncollected(servers) == left
      && (forall k :: 0 <= k < |servers| ==> servers[k] != Untouched)
    case _ => AllCollected(servers)
  }

  ghost predicate AllCollected(servers: seq<Server>) {
    forall k :: 0 <= k < |servers| ==> servers[k].Collected?
  }

  /** Each report is received at most once, by the select or after the drain. */
  ghost predicate ListenersOk(s: State) {
    && s.serve != NoSender
    && s.serveReceipts == (if s.serve.Received? then 1 else 0)
    && s.metricsReceipts == (if s.metrics.Received? then 1 else 0)
    && (s.serveReported ==> s.serve.Received? && Begun(s.at))
    && (s.metricsReported ==> s.metrics.Received? && Begun(s.at))
    && (s.serve.Received? ==> s.serveReported || s.at.AwaitMetrics? || AtMostLeft(s.at, DEFERRED))
    && (s.metrics.Received? ==> s.metricsReported || AtMostLeft(s.at, DEFERRED))
    && (s.at.AwaitMetrics? || AtMostLeft(s.at, DEFERRED) ==> s.serve.Received?)
    && (AtMostLeft(s.at, DEFERRED) && HasMetrics(s) ==> s.metrics.Received?)
  }

  /** The exit error is the report that woke the select. */
  ghost predicate ExitOk(s: State) {
    && s.drains == (if Begun(s.at) then 1 else 0)
    && (s.serveReported ==> s.serve.Received? && s.exitErr == s.serve.err)
    && (s.metricsReported ==> s.metrics.Received? && s.exitErr == s.metrics.err)
    && !(s.serveReported && s.metricsReported)
    && (!s.serveReported && !s.metricsReported ==> s.exitErr == None)
    && (s.at.Selecting? ==> !s.serveReported && !s.metricsReported)
  }

  /** Requests are cancelled when the drain ends, and the deferred actions run in reverse order. */
  ghost predicate CleanupOk(s: State) {
    && (s.at.Unwinding? ==> s.at.left <= DEFERRED)
    && (s.requestsCancelled <==> Drained(s.at))
    && (s.cleanupStopped <==> AtMostLeft(s.at, 4))
    && (AtMostLeft(s.at, 3) ==> s.cleanupDone)
    && (s.poolClosed <==> AtMostLeft(s.at, 2))
    && (s.cleanupDone ==> CleanupCancelled(s))
  }

  function ErrorOf(server: Server): multiset<nat> {
    if server.Collected? && server.err.Some? then multiset{server.err.value} else multiset{}
  }

  /** The failures of the shutdown calls whose results were collected. */
  function Errors(servers: seq<Server>): multiset<nat> {
    if servers == [] then multiset{} else ErrorOf(servers[0]) + Errors(servers[1..])
  }

  /** The drain reports exactly the failures it collected. */
  ghost predicate ProblemsOk(s: State) {
    Reported(s.problems, s.servers)
  }

  ghost predicate Reported(problems: seq<nat>, servers: seq<Server>) {
    multiset(problems) == Errors(servers)
  }

  ghost predicate Inv(s: State) {
    ServersOk(s.at, s.servers) && ListenersOk(s) && ExitOk(s) && CleanupOk(s) && ProblemsOk(s)
  }

  lemma {:induction false} UncollectedUpdate(servers: seq<Server>, k: nat, v: Server)
    requires k < |servers|
    ensures Uncollected(servers[k := v]) + (if servers[k].Collected? then 0 else 1)
            == Uncollected(servers) + (if v.Collected? then 0 else 1)
  {
    if k == 0 {
      assert servers[k := v][1..] == servers[1..];
    } else {
      assert servers[k := v][1..] == servers[1..][k - 1 := v];
      UncollectedUpdate(servers[1..], k - 1, v);
    }
  }

  lemma {:induction false} AllUncollected(servers: seq<Server>)
    requires forall k :: 0 <= k < |servers| ==> !servers[k].Collected?
    ensures Uncollected(servers) == |servers|
  {
    if servers != [] { AllUncollected(servers[1..]); }
  }

  lemma {:induction false} NoneUncollected(servers: seq<Server>)
    requires Uncollected(servers) == 0
    ensures AllCollected(servers)
  {
    if servers != [] {
      NoneUncollected(servers[1..]);
      assert forall k :: 0 < k < |servers| ==> servers[k] == servers[1..][k - 1];
    }
  }

  lemma StartOne(servers: seq<Server>, next: nat, v: Server)
    requires ServersOk(Starting(next), servers) && next < |servers|
    requires v == Stopping || v.Returned?
    ensures ServersOk(Starting(next + 1), servers[next := v])
  {
  }

  lemma StartedAll(servers: seq<Server>)
    requires ServersOk(Starting(|servers|), servers)
    ensures ServersOk(if |servers| == 0 then Cancelling else Collecting(|servers|), servers)
  {
    AllUncollected(servers);
  }

  lemma CollectOne(servers: seq<Server>, left: nat, k: nat, err: Error)
    requires ServersOk(Collecting(left), servers) && k < |servers| && servers[k].Returned?
    ensures ServersOk(if left == 1 then Cancelling else Collecting(left - 1), servers[k := Collected(err)])
  {
    UncollectedUpdate(servers, k, Collected(err));
    if left == 1 { NoneUncollected(servers[k := Collected(err)]); }
  }

  lemma ReturnOne(p: Point, servers: seq<Server>, k: nat, err: Error)
    requires ServersOk(p, servers) && k < |servers| && servers[k] == Stopping
    ensures ServersOk(p, servers[k := Returned(err)])
  {
    UncollectedUpdate(servers, k, Returned(err));
  }

  lemma OtherServers(s: State, a: Action)
    requires ServersOk(s.at, s.servers) && Enabled(s, a) && CleanupOk(s)
    requires !a.StartNext? && !a.Collect? && !a.ShutdownReturns?
    ensures ServersOk(Apply(s, a).at, Apply(s, a).servers)
  {
    OtherProblems(s, a);
  }

  lemma StartServers(s: State, next: nat)
    requires s.at == Starting(next) && ServersOk(Starting(next), s.servers)
    ensures ServersOk(DoStartNext(s).at, DoStartNext(s).servers)
  {
    if next < |s.servers| { StartOne(s.servers, next, Begin(s, next)); } else { StartedAll(s.servers); }
  }

  lemma ServersStep(s: State, a: Action)
    requires ServersOk(s.at, s.servers) && Enabled(s, a) && CleanupOk(s)
    ensures ServersOk(Apply(s, a).at, Apply(s, a).servers)
  {
    match a
    case ShutdownReturns(k, err) => ReturnOne(s.at, s.servers, k, err);
    case StartNext => StartServers(s, s.at.next);
    case Collect(k) => CollectOne(s.servers, s.at.left, k, s.servers[k].err);
    case _ => OtherServers(s, a);
  }

  lemma SelectListeners(s: State)
    requires ListenersOk(s) && ExitOk(s) && s.at.Selecting?
    ensures s.serve.Sent? ==> ListenersOk(DoSelectServe(s)) && ExitOk(DoSelectServe(s))
    ensures s.metrics.Sent? ==> ListenersOk(DoSelectMetrics(s)) && ExitOk(DoSelectMetrics(s))
  {
  }

  lemma ReceiveListeners(s: State)
    requires ListenersOk(s) && ExitOk(s)
    ensures s.at == AwaitServe && (s.serveReported || s.serve.Sent?) ==>
              ListenersOk(DoReceiveServe(s)) && ExitOk(DoReceiveServe(s))
    ensures s.at == AwaitMetrics && (!HasMetrics(s) || s.metricsReported || s.metrics.Sent?) ==>
              ListenersOk(DoReceiveMetrics(s)) && ExitOk(DoReceiveMetrics(s))
  {
  }

  /** What happens around run, and steps of run that no listener notices. */
  lemma OuterListeners(s: State, a: Action)
    requires ListenersOk(s) && ExitOk(s) && Enabled(s, a)
    requires a.Signal? || a.ServeReports? || a.MetricsReports? || a.ShutdownReturns? || a.CleanupExits?
    ensures ListenersOk(Apply(s, a)) && ExitOk(Apply(s, a))
  {
    match a
    case Signal =>
    case ServeReports(err) =>
    case MetricsReports(err) =>
    case ShutdownReturns(k, err) =>
    case CleanupExits =>
  }

  lemma StartListeners(s: State, next: nat)
    requires ListenersOk(s) && ExitOk(s) && s.at == Starting(next)
    ensures ListenersOk(DoStartNext(s)) && ExitOk(DoStartNext(s))
  {
    if next < |s.servers| {} else if |s.servers| == 0 {} else {}
  }

  lemma DrainListeners(s: State, a: Action)
    requires ListenersOk(s) && ExitOk(s) && Enabled(s, a)
    requires a.SelectSignal? || a.StartNext? || a.Collect? || a.CancelInFlight?
    ensures ListenersOk(Apply(s, a)) && ExitOk(Apply(s, a))
  {
    match a
    case SelectSignal =>
    case StartNext => StartListeners(s, s.at.next);
    case Collect(k) =>
    case CancelInFlight =>
  }

  lemma DeferredListeners(s: State, left: nat)
    requires ListenersOk(s) && ExitOk(s) && s.at == Unwinding(left) && left <= DEFERRED
    ensures ListenersOk(DoRunDeferred(s)) && ExitOk(DoRunDeferred(s))
  {
    if left == 0 {} else {}
  }

  lemma ListenersStep(s: State, a: Action)
    requires ListenersOk(s) && ExitOk(s) && CleanupOk(s) && Enabled(s, a)
    ensures ListenersOk(Apply(s, a)) && ExitOk(Apply(s, a))
  {
    if a.SelectServe? || a.SelectMetrics? { SelectListeners(s); }
    else if a.ReceiveServe? || a.ReceiveMetrics? { ReceiveListeners(s); }
    else if a.RunDeferred? { DeferredListeners(s, s.at.left); }
    else if a.SelectSignal? || a.StartNext? || a.Collect? || a.CancelInFlight? { DrainListeners(s, a); }
    else { OuterListeners(s, a); }
  }

  lemma CleanupDeferred(s: State)
    requires CleanupOk(s) && CanRunDeferred(s)
    ensures CleanupOk(DoRunDeferred(s))
  {
    if s.at.left == 0 {} else {}
  }

  lemma CleanupStep(s: State, a: Action)
    requires CleanupOk(s) && Enabled(s, a)
    ensures CleanupOk(Apply(s, a))
  {
    match a
    case Signal => case ServeReports(_) => case MetricsReports(_) => case ShutdownReturns(_, _) =>
    case CleanupExits => case SelectSignal => case SelectServe => case SelectMetrics =>
    case StartNext => case Collect(_) => case CancelInFlight => case ReceiveServe => case ReceiveMetrics =>
    case RunDeferred => CleanupDeferred(s);
  }

  lemma {:induction false} ErrorsUpdate(servers: seq<Server>, k: nat, v: Server)
    requires k < |servers| && !servers[k].Collected?
    ensures Errors(servers[k := v]) == Errors(servers) + ErrorOf(v)
  {
    var rest := servers[1..];
    if k == 0 {
      assert servers[k := v][1..] == rest;
      assert Errors(servers) == Errors(rest);
    } else {
      assert servers[k := v][1..] == rest[k - 1 := v];
      ErrorsUpdate(rest, k - 1, v);
    }
  }

  lemma {:induction false} NoErrors(servers: seq<Server>)
    requires forall k :: 0 <= k < |servers| ==> ErrorOf(servers[k]) == multiset{}
    ensures Errors(servers) == multiset{}
  {
    if servers != [] { NoErrors(servers[1..]); }
  }

  lemma {:induction false} SomeError(servers: seq<Server>, k: nat)
    requires k < |servers|
    ensures ErrorOf(servers[k]) <= Errors(servers)
  {
    if k > 0 { SomeError(servers[1..], k - 1); assert servers[1..][k - 1] == servers[k]; }
  }

  lemma ReportOne(problems: seq<nat>, servers: seq<Server>, k: nat, v: Server)
    requires Reported(problems, servers) && k < |servers| && !servers[k].Collected?
    ensures Reported(if v.Collected? && v.err.Some? then problems + [v.err.value] else problems, servers[k := v])
  {
    ErrorsUpdate(servers, k, v);
  }

  lemma OtherProblems(s: State, a: Action)
    requires Enabled(s, a) && !a.ShutdownReturns? && !a.StartNext? && !a.Collect?
    ensures Apply(s, a).servers == s.servers && Apply(s, a).problems == s.problems
  {
    match a
    case Signal => case ServeReports(_) => case MetricsReports(_) => case CleanupExits =>
    case SelectSignal => case SelectServe => case SelectMetrics =>
    case CancelInFlight => case ReceiveServe => case ReceiveMetrics => case RunDeferred =>
  }

  lemma StartProblems(s: State, next: nat)
    requires ProblemsOk(s) && s.at == Starting(next) && (next < |s.servers| ==> s.servers[next] == Untouched)
    ensures ProblemsOk(DoStartNext(s))
  {
    if next < |s.servers| { ReportOne(s.problems, s.servers, next, Begin(s, next)); }
  }

  lemma ServerProblems(s: State, a: Action)
    requires ProblemsOk(s) && ServersOk(s.at, s.servers) && Enabled(s, a)
    requires a.ShutdownReturns? || a.StartNext? || a.Collect?
    ensures ProblemsOk(Apply(s, a))
  {
    match a
    case ShutdownReturns(k, err) => ReportOne(s.problems, s.servers, k, Returned(err));
    case StartNext => StartProblems(s, s.at.next);
    case Collect(k) => ReportOne(s.problems, s.servers, k, Collected(s.servers[k].err));
  }

  lemma ProblemsStep(s: State, a: Action)
    requires ProblemsOk(s) && ServersOk(s.at, s.servers) && Enabled(s, a)
    ensures ProblemsOk(Apply(s, a))
  {
    if a.ShutdownReturns? || a.StartNext? || a.Collect? { ServerProblems(s, a); } else { OtherProblems(s, a); }
  }

  lemma StepInv(s: State, a: Action)
    requires Inv(s) && Enabled(s, a)
    ensures Inv(Apply(s, a))
  {
    ServersStep(s, a);
    ListenersStep(s, a);
    CleanupStep(s, a);
    ProblemsStep(s, a);
  }

  lemma {:induction false} ReachableInv(states: seq<State>, steps: seq<Action>, k: nat)
    requires Behavior(states, steps) && k < |states|
    ensures Inv(states[k])
  {
    if k > 0 {
      ReachableInv(states, steps, k - 1);
      assert StepAt(states, steps, k - 1);
      StepInv(states[k - 1], steps[k - 1]);
    } else {
      NoErrors(states[0].servers);
    }
  }

  // ------------------------------------------------------------ what every shutdown guarantees

  /** In every run, whatever arrives in whatever order: the drain runs once; each started listener's
      report is received at most once; requests are cancelled only when every shutdown call has
      returned; the pool closes only after the drain, the listeners' reports and the cleanup goroutine. */
  lemma ShutdownOrder(states: seq<State>, steps: seq<Action>, k: nat)
    requires Behavior(states, steps) && k < |states|
    ensures var s := states[k];
            && s.drains <= 1 && s.serveReceipts <= 1 && s.metricsReceipts <= 1
            && (s.requestsCancelled ==> forall m :: 0 <= m < |s.servers| ==> Finished(s.servers[m]))
            && (s.poolClosed ==>
                  && s.requestsCancelled && s.cleanupDone && s.drains == 1
                  && s.serveReceipts == 1 && s.metricsReceipts == (if HasMetrics(s) then 1 else 0))
  {
    ReachableInv(states, steps, k);
  }

  /** What run returns. */
  datatype Outcome = Clean | ListenerFailed(err: nat) | DrainFailed(problems: seq<nat>)

  /** The listener failure that woke run goes before the drain's problems. */
  function Verdict(exitErr: Error, problems: seq<nat>): Outcome {
    if exitErr.Some? then ListenerFailed(exitErr.value)
    else if problems != [] then DrainFailed(problems) else Clean
  }

  /** Once run has exited: one drain, each started listener's report received exactly once, every
      shutdown result collected, requests cancelled, the cleanup goroutine gone and the pool closed.
      The exit error is the report that woke the select, and the problems are exactly the failed shutdowns. */
  ghost predicate Complete(s: State) {
    && s.at == Exited && s.drains == 1
    && s.serveReceipts == 1 && s.metricsReceipts == (if HasMetrics(s) then 1 else 0)
    && s.requestsCancelled && s.cleanupDone && s.poolClosed && AllCollected(s.servers)
    && (s.serveReported ==> s.serve.Received? && s.exitErr == s.serve.err)
    && (s.metricsReported ==> s.metrics.Received? && s.exitErr == s.metrics.err)
    && (!s.serveReported && !s.metricsReported ==> s.exitErr == None)
    && Reported(s.problems, s.servers)
  }

  lemma ExitIsComplete(states: seq<State>, steps: seq<Action>)
    requires Behavior(states, steps) && states[|steps|].at == Exited
    ensures Complete(states[|steps|])
  {
    ReachableInv(states, steps, |steps|);
  }

  /** An exit is clean exactly if neither the report that woke run nor any shutdown call was an error. */
  lemma CleanExit(s: State)
    requires Complete(s)
    ensures Verdict(s.exitErr, s.problems) == Clean <==>
            s.exitErr == None && forall k :: 0 <= k < |s.servers| ==> s.servers[k].err == None
  {
    if s.problems == [] {
      forall k | 0 <= k < |s.servers| ensures s.servers[k].err == None { SomeError(s.servers, k); }
    } else {
      assert s.problems[0] in multiset(s.problems);
      if forall k :: 0 <= k < |s.servers| ==> s.servers[k].err == None { NoErrors(s.servers); }
    }
  }

  // ------------------------------------------------------------ why run stopped, and what it answers

  /** Step `a` of the select took a signal, or a report of `err`. */
  predicate WokeWith(s: State, a: Action, err: Error) {
    || (a == SelectSignal && err == None)
    || (a == SelectServe && s.serve == Sent(err))
    || (a == SelectMetrics && s.metrics == Sent(err))
  }

  lemma ExitErrStays(s: State, a: Action)
    requires Enabled(s, a) && !s.at.Selecting?
    ensures Apply(s, a).exitErr == s.exitErr
  {
    match a
    case Signal => case ServeReports(_) => case MetricsReports(_) => case ShutdownReturns(_, _) =>
    case CleanupExits => case SelectSignal => case SelectServe => case SelectMetrics =>
    case StartNext => if s.at.next < |s.servers| {} else if |s.servers| == 0 {} else {}
    case Collect(_) => case CancelInFlight =>
    case ReceiveServe => if s.serveReported {} else {}
    case ReceiveMetrics => if !HasMetrics(s) || s.metricsReported {} else {}
    case RunDeferred => if s.at.left == 0 {} else {}
  }

  lemma SelectDecides(s: State, a: Action)
    requires Enabled(s, a) && s.at.Selecting?
    ensures !Apply(s, a).at.Selecting? ==> WokeWith(s, a, Apply(s, a).exitErr)
  {
    match a
    case Signal => case ServeReports(_) => case MetricsReports(_) => case ShutdownReturns(_, _) =>
    case CleanupExits => case SelectSignal => case SelectServe => case SelectMetrics =>
    case StartNext => case Collect(_) => case CancelInFlight => case ReceiveServe => case ReceiveMetrics =>
    case RunDeferred =>
  }

  /** Once run has stopped selecting, its exit error is what the select took, whatever was received since. */
  lemma {:induction false} WokenBy(states: seq<State>, steps: seq<Action>, m: nat) returns (woke: nat)
    requires Behavior(states, steps) && m < |states| && !states[m].at.Selecting?
    ensures woke < m && WokeWith(states[woke], steps[woke], states[m].exitErr)
  {
    assert StepAt(states, steps, m - 1);
    if states[m - 1].at.Selecting? {
      SelectDecides(states[m - 1], steps[m - 1]);
      woke := m - 1;
    } else {
      ExitErrStays(states[m - 1], steps[m - 1]);
      woke := WokenBy(states, steps, m - 1);
    }
  }

  predicate SomeShutdownFailed(servers: seq<Server>) {
    exists k :: 0 <= k < |servers| && servers[k].Collected? && servers[k].err.Some?
  }

  /** The answer of a run that `err` woke: the failure of the listener that woke it if there was one, else the
      failed shutdowns, all of them, if there were any, else nothing. */
  ghost predicate Answers(outcome: Outcome, err: Error, servers: seq<Server>) {
    && (err.Some? ==> outcome == ListenerFailed(err.value))
    && (err.None? && SomeShutdownFailed(servers) ==>
          outcome.DrainFailed? && outcome.problems != [] && multiset(outcome.problems) == Errors(servers))
    && (err.None? && !SomeShutdownFailed(servers) ==> outcome == Clean)
  }

  lemma VerdictAnswers(s: State)
    requires AllCollected(s.servers) && Reported(s.problems, s.servers)
    ensures Answers(Verdict(s.exitErr, s.problems), s.exitErr, s.servers)
  {
    if SomeShutdownFailed(s.servers) {
      var k :| 0 <= k < |s.servers| && s.servers[k].Collected? && s.servers[k].err.Some?;
      SomeError(s.servers, k);
      assert s.servers[k].err.value in multiset(s.problems);
    } else {
      NoErrors(s.servers);
      assert |multiset(s.problems)| == |s.problems|;
    }
  }

  lemma NilServersStay(s: State, a: Action)
    requires Enabled(s, a)
    ensures Apply(s, a).nilServers == s.nilServers && |Apply(s, a).servers| == |s.servers|
  {
    match a
    case Signal => case ServeReports(_) => case MetricsReports(_) => case ShutdownReturns(_, _) =>
    case CleanupExits => case SelectSignal => case SelectServe => case SelectMetrics =>
    case StartNext => if s.at.next < |s.servers| {} else if |s.servers| == 0 {} else {}
    case Collect(_) => case CancelInFlight =>
    case ReceiveServe => if s.serveReported {} else {}
    case ReceiveMetrics => if !HasMetrics(s) || s.metricsReported {} else {}
    case RunDeferred => if s.at.left == 0 {} else {}
  }

  /** The result a server has come to, if any. */
  function ResultOf(server: Server): Option<Error> {
    if server.Returned? || server.Collected? then Some(server.err) else None
  }

  lemma ResultStep(s: State, a: Action, k: nat)
    requires Enabled(s, a) && k < |s.servers| && k < |Apply(s, a).servers|
    ensures var before, after := ResultOf(s.servers[k]), ResultOf(Apply(s, a).servers[k]);
            after == before || (a.StartNext? && k in s.nilServers && after == Some(None))
            || (exists err :: a == ShutdownReturns(k, err) && after == Some(err)) || after == None
  {
    match a
    case ShutdownReturns(_, _) =>
    case StartNext => StartResult(s, s.at.next, k);
    case Collect(_) =>
    case _ => OtherProblems(s, a);
  }

  lemma StartResult(s: State, next: nat, k: nat)
    requires s.at == Starting(next) && k < |s.servers|
    ensures |DoStartNext(s).servers| == |s.servers|
    ensures var before, after := ResultOf(s.servers[k]), ResultOf(DoStartNext(s).servers[k]);
            after == before || (k in s.nilServers && after == Some(None)) || after == None
  {
    if next < |s.servers| {} else if |s.servers| == 0 {} else {}
  }

  /** Every result came from the server's own shutdown call, and a missing server counts as shut down. */
  lemma {:induction false} ResultsAreReal(states: seq<State>, steps: seq<Action>, m: nat, k: nat) returns (j: nat)
    requires Behavior(states, steps) && m < |states| && k < |states[m].servers| && ResultOf(states[m].servers[k]).Some?
    ensures k < |states[0].servers| && states[m].nilServers == states[0].nilServers
    ensures k !in states[0].nilServers ==>
              j < m && steps[j] == ShutdownReturns(k, ResultOf(states[m].servers[k]).value)
    ensures k in states[0].nilServers ==>
              ResultOf(states[m].servers[k]) == Some(None)
              || (j < m && steps[j] == ShutdownReturns(k, ResultOf(states[m].servers[k]).value))
  {
    j := 0;
    if m > 0 {
      var s, a := states[m - 1], steps[m - 1];
      assert StepAt(states, steps, m - 1);
      NilServersStay(s, a);
      ResultStep(s, a, k);
      NilServersOf(states, steps, m - 1);
      if ResultOf(s.servers[k]) == ResultOf(states[m].servers[k]) {
        j := ResultsAreReal(states, steps, m - 1, k);
      } else {
        j := m - 1;
      }
    }
  }

  lemma {:induction false} NilServersOf(states: seq<State>, steps: seq<Action>, m: nat)
    requires Behavior(states, steps) && m < |states|
    ensures states[m].nilServers == states[0].nilServers && |states[m].servers| == |states[0].servers|
  {
    if m > 0 {
      NilServersOf(states, steps, m - 1);
      assert StepAt(states, steps, m - 1);
      NilServersStay(states[m - 1], steps[m - 1]);
    }
  }

  /** The shutdown of every server that is there was called and returned what was collected. */
  ghost predicate AllShutDown(s: State, steps: seq<Action>) {
    forall k :: 0 <= k < |s.servers| && k !in s.nilServers ==>
      s.servers[k].Collected? && exists j :: 0 <= j < |steps| && steps[j] == ShutdownReturns(k, s.servers[k].err)
  }

  lemma CollectedAreReal(states: seq<State>, steps: seq<Action>)
    requires Behavior(states, steps) && AllCollected(states[|steps|].servers)
    ensures AllShutDown(states[|steps|], steps)
  {
    var s := states[|steps|];
    forall k | 0 <= k < |s.servers| && k !in s.nilServers
      ensures exists j :: 0 <= j < |steps| && steps[j] == ShutdownReturns(k, s.servers[k].err)
    {
      var j := ResultsAreReal(states, steps, |steps|, k);
    }
  }

  // ------------------------------------------------------------ no hang

  /** A signal arrived or a listener reported: there is a reason to stop. */
  predicate Woken(s: State) {
    s.at.Selecting? ==> s.signalled || s.serve.Sent? || s.metrics.Sent?
  }

  lemma {:induction false} PendingServer(servers: seq<Server>) returns (k: nat)
    requires Uncollected(servers) > 0
    ensures k < |servers| && !servers[k].Collected?
  {
    if servers[0].Collected? {
      k := PendingServer(servers[1..]);
      k := k + 1;
    } else {
      k := 0;
    }
  }

  /** After a reason to stop, some step is always possible until run exits, and it is run's own or one
      that is owed to it: a shutdown call returns, a started listener reports, the cancelled cleanup
      goroutine exits. No order of arrivals leaves the process hanging. */
  lemma NeverStuck(s: State) returns (a: Action)
    requires Inv(s) && s.at != Exited && Woken(s)
    ensures Enabled(s, a) && a != Signal
  {
    match s.at
    case Selecting => a := if s.signalled then SelectSignal else if s.serve.Sent? then SelectServe else SelectMetrics;
    case Starting(_) => a := StartNext;
    case Collecting(_) =>
      var k := PendingServer(s.servers);
      a := if s.servers[k].Returned? then Collect(k) else ShutdownReturns(k, None);
    case Cancelling => a := CancelInFlight;
    case AwaitServe => a := if s.serve == Waiting then ServeReports(None) else ReceiveServe;
    case AwaitMetrics => a := if s.metrics == Waiting then MetricsReports(None) else ReceiveMetrics;
    case Unwinding(left) => a := if left == 4 && !s.cleanupDone then CleanupExits else RunDeferred;
  }

  /** The shutdown calls that can still return. */
  function Pending(servers: seq<Server>): nat {
    if servers == [] then 0
    else (if servers[0] == Untouched || servers[0] == Stopping then 1 else 0) + Pending(servers[1..])
  }

  /** The steps run itself still has to take. */
  function Ahead(p: Point, n: nat): nat {
    match p
    case Selecting => 2 * n + 14
    case Starting(next) => if next <= n then 2 * n - next + 13 else 0
    case Collecting(left) => left + 9
    case Cancelling => 9
    case AwaitServe => 8
    case AwaitMetrics => 7
    case Unwinding(left) => left + 1
    case Exited => 0
  }

  /** The events around run that can still happen, shutdown calls aside. */
  function Outside(s: State): nat {
    (if s.signalled then 0 else 1) + (if s.serve == Waiting then 1 else 0)
    + (if s.metrics == Waiting then 1 else 0) + (if s.cleanupDone then 0 else 1)
  }

  function Remaining(s: State): nat {
    Ahead(s.at, |s.servers|) + Outside(s) + Pending(s.servers)
  }

  lemma {:induction false} PendingUpdate(servers: seq<Server>, k: nat, v: Server)
    requires k < |servers|
    ensures Pending(servers[k := v]) + (if servers[k] == Untouched || servers[k] == Stopping then 1 else 0)
            == Pending(servers) + (if v == Untouched || v == Stopping then 1 else 0)
  {
    if k == 0 {
      assert servers[k := v][1..] == servers[1..];
    } else {
      assert servers[k := v][1..] == servers[1..][k - 1 := v];
      PendingUpdate(servers[1..], k - 1, v);
    }
  }

  lemma {:induction false} PendingBound(servers: seq<Server>)
    ensures Pending(servers) <= |servers|
  {
    if servers != [] { PendingBound(servers[1..]); }
  }

  lemma OuterProgress(s: State, a: Action)
    requires Enabled(s, a) && (a.Signal? || a.ServeReports? || a.MetricsReports? || a.CleanupExits?)
    ensures Remaining(Apply(s, a)) < Remaining(s)
  {
    match a
    case Signal =>
    case ServeReports(err) =>
    case MetricsReports(err) =>
    case CleanupExits =>
  }

  lemma ServeProgress(s: State)
    requires s.at == AwaitServe && (s.serveReported || s.serve.Sent?)
    ensures Remaining(DoReceiveServe(s)) < Remaining(s)
  {
    if s.serveReported {} else {}
  }

  lemma MetricsProgress(s: State)
    requires s.at == AwaitMetrics && (!HasMetrics(s) || s.metricsReported || s.metrics.Sent?)
    ensures Remaining(DoReceiveMetrics(s)) < Remaining(s)
  {
    if !HasMetrics(s) || s.metricsReported {} else {}
  }

  lemma ReceiveProgress(s: State, a: Action)
    requires Enabled(s, a) && (a.CancelInFlight? || a.ReceiveServe? || a.ReceiveMetrics? || a.RunDeferred?)
    ensures Remaining(Apply(s, a)) < Remaining(s)
  {
    match a
    case CancelInFlight =>
    case ReceiveServe => ServeProgress(s);
    case ReceiveMetrics => MetricsProgress(s);
    case RunDeferred => DeferredProgress(s, s.at.left);
  }

  lemma DeferredProgress(s: State, left: nat)
    requires s.at == Unwinding(left)
    ensures Remaining(DoRunDeferred(s)) < Remaining(s)
  {
    if left == 0 {} else {}
  }

  lemma SelectProgress(s: State, a: Action)
    requires Enabled(s, a) && (a.SelectSignal? || a.SelectServe? || a.SelectMetrics?)
    ensures Remaining(Apply(s, a)) < Remaining(s)
  {
    match a
    case SelectSignal =>
    case SelectServe =>
    case SelectMetrics =>
  }

  lemma StartProgress(s: State, next: nat)
    requires s.at == Starting(next) && next <= |s.servers| && (next < |s.servers| ==> s.servers[next] == Untouched)
    ensures Remaining(DoStartNext(s)) < Remaining(s)
  {
    if next < |s.servers| { PendingUpdate(s.servers, next, Begin(s, next)); }
  }

  lemma ServerProgress(s: State, a: Action)
    requires Enabled(s, a) && ServersOk(s.at, s.servers) && (a.ShutdownReturns? || a.StartNext? || a.Collect?)
    ensures Remaining(Apply(s, a)) < Remaining(s)
  {
    match a
    case ShutdownReturns(k, err) => PendingUpdate(s.servers, k, Returned(err));
    case StartNext => StartProgress(s, s.at.next);
    case Collect(k) => PendingUpdate(s.servers, k, Collected(s.servers[k].err));
  }

  lemma Progress(s: State, a: Action)
    requires Enabled(s, a) && ServersOk(s.at, s.servers)
    ensures Remaining(Apply(s, a)) < Remaining(s)
  {
    if a.ShutdownReturns? || a.StartNext? || a.Collect? { ServerProgress(s, a); }
    else if a.SelectSignal? || a.SelectServe? || a.SelectMetrics? { SelectProgress(s, a); }
    else if a.CancelInFlight? || a.ReceiveServe? || a.ReceiveMetrics? || a.RunDeferred? { ReceiveProgress(s, a); }
    else { OuterProgress(s, a); }
  }

  lemma {:induction false} RunSpends(states: seq<State>, steps: seq<Action>, k: nat)
    requires Behavior(states, steps) && k < |states|
    ensures k + Remaining(states[k]) <= Remaining(states[0])
  {
    if k > 0 {
      RunSpends(states, steps, k - 1);
      ReachableInv(states, steps, k - 1);
      assert StepAt(states, steps, k - 1);
      Progress(states[k - 1], steps[k - 1]);
    }
  }

  /** Every run is short, and one that has nothing owed to it left has exited: with a reason to stop,
      run always terminates. */
  lemma AlwaysTerminates(states: seq<State>, steps: seq<Action>)
    requires Behavior(states, steps)
    ensures |steps| <= 3 * |states[0].servers| + 18
    ensures Woken(states[|steps|]) && (forall a :: a != Signal ==> !Enabled(states[|steps|], a)) ==>
              Complete(states[|steps|])
  {
    RunSpends(states, steps, |steps|);
    PendingBound(states[0].servers);
    ReachableInv(states, steps, |steps|);
    var s := states[|steps|];
    if s.at != Exited && Woken(s) { var a := NeverStuck(s); }
  }

  // ------------------------------------------------------------ the process

  lemma BehaviorThen(states: seq<State>, steps: seq<Action>, a: Action)
    requires Behavior(states, steps) && Enabled(states[|steps|], a)
    ensures Behavior(states + [Apply(states[|steps|], a)], steps + [a])
  {
    var states', steps' := states + [Apply(states[|steps|], a)], steps + [a];
    forall k | 0 <= k < |steps'| ensures StepAt(states', steps', k) {
      if k < |steps| { assert StepAt(states, steps, k); }
    }
  }

  /** What the select, the drain and the deferred actions decide; events around run leave it alone. */
  predicate SameRun(s: State, t: State) {
    && t.at == s.at && t.exitErr == s.exitErr && t.problems == s.problems
    && t.serveReported == s.serveReported && t.metricsReported == s.metricsReported
    && (s.signalled ==> t.signalled)
    && (s.serve.Sent? ==> t.serve == s.serve) && (s.metrics.Sent? ==> t.metrics == s.metrics)
    && |t.servers| == |s.servers| && HasMetrics(t) == HasMetrics(s)
  }

  lemma CollectingOffers(states: seq<State>, steps: seq<Action>) returns (k: nat)
    requires Behavior(states, steps) && states[|steps|].at.Collecting?
    ensures var s := states[|steps|]; s.at.left > 0 && k < |s.servers| && !s.servers[k].Collected?
    ensures forall k :: 0 <= k < |states[|steps|].servers| ==> states[|steps|].servers[k] != Untouched
  {
    ReachableInv(states, steps, |steps|);
    k := PendingServer(states[|steps|].servers);
  }

  lemma DrainedAll(states: seq<State>, steps: seq<Action>)
    requires Behavior(states, steps) && states[|steps|].at == AwaitServe
    ensures var s := states[|steps|]; AllCollected(s.servers) && s.requestsCancelled && Reported(s.problems, s.servers)
  {
    ReachableInv(states, steps, |steps|);
  }

  lemma UnwindingDrained(states: seq<State>, steps: seq<Action>)
    requires Behavior(states, steps) && states[|steps|].at.Unwinding?
    ensures var s := states[|steps|]; AllCollected(s.servers) && Reported(s.problems, s.servers)
  {
    ReachableInv(states, steps, |steps|);
  }

  /** No receive waits for a report that was received before. */
  lemma ReportsDue(states: seq<State>, steps: seq<Action>)
    requires Behavior(states, steps)
    ensures var s := states[|steps|];
            && (s.at == AwaitServe ==> s.serveReported || s.serve == Waiting || s.serve.Sent?)
            && (s.at == AwaitMetrics ==> !HasMetrics(s) || s.metricsReported || s.metrics == Waiting || s.metrics.Sent?)
  {
    ReachableInv(states, steps, |steps|);
  }

  lemma CleanupDue(states: seq<State>, steps: seq<Action>)
    requires Behavior(states, steps) && states[|steps|].at == Unwinding(4)
    ensures CleanupCancelled(states[|steps|])
  {
    ReachableInv(states, steps, |steps|);
  }

  /** One process: run after its start-up. The ghost fields record every step of the run so far. */
  class Process {
    var s: State
    ghost var states: seq<State>
    ghost var steps: seq<Action>

    ghost predicate Valid()
      reads this
    {
      Behavior(states, steps) && s == states[|steps|]
    }

    constructor (servers: nat, nilServers: set<nat>, hasMetrics: bool)
      ensures Valid() && s.at == Selecting && steps == []
      ensures |s.servers| == servers && s.nilServers == nilServers && HasMetrics(s) == hasMetrics
    {
      s := State(Selecting, false, Waiting, if hasMetrics then Waiting else NoSender,
                 seq(servers, _ => Untouched), nilServers,
                 false, false, false, false, false, false, None, [], 0, 0, 0);
      new;
      states, steps := [s], [];
    }

    method Take(a: Action)
      requires Valid() && Enabled(s, a)
      modifies this
      ensures Valid() && s == Apply(old(s), a)
      ensures states == old(states) + [s] && steps == old(steps) + [a]
    {
      BehaviorThen(states, steps, a);
      s := Apply(s, a);
      states, steps := states + [s], steps + [a];
    }

    /** Any events around run, in any order and number. */
    method Around()
      requires Valid()
      modifies this
      ensures Valid() && SameRun(old(s), s)
    {
      var n: nat := *;
      while n > 0
        invariant Valid() && SameRun(old(s), s)
      {
        var err: Error := *;
        var k: nat := *;
        Happen(k, err);
        n := n - 1;
      }
    }

    /** One event around run, if one is possible. */
    method Happen(k: nat, err: Error)
      requires Valid()
      modifies this
      ensures Valid() && SameRun(old(s), s)
    {
      if
      case !s.signalled => Take(Signal);
      case s.serve == Waiting => Take(ServeReports(err));
      case s.metrics == Waiting => Take(MetricsReports(err));
      case k < |s.servers| && s.servers[k] == Stopping => Take(ShutdownReturns(k, err));
      case CleanupCancelled(s) && !s.cleanupDone => Take(CleanupExits);
      case true =>
    }

    /** Drain: start every shutdown, collect every result, then cancel the requests. */
    method Drain()
      requires Valid() && s.at == Starting(0)
      modifies this
      ensures Valid() && s.at == AwaitServe && AllCollected(s.servers) && s.requestsCancelled
      ensures Reported(s.problems, s.servers) && AllShutDown(s, steps)
      ensures s.exitErr == old(s.exitErr)
    {
      StartAll();
      CollectAll();
      Take(CancelInFlight);
      DrainedAll(states, steps);
      CollectedAreReal(states, steps);
    }

    /** The loop that starts the goroutines. */
    method StartAll()
      requires Valid() && s.at == Starting(0)
      modifies this
      ensures Valid() && |s.servers| == |old(s.servers)| && s.exitErr == old(s.exitErr)
      ensures s.at == if |s.servers| == 0 then Cancelling else Collecting(|s.servers|)
    {
      var n := |s.servers|;
      for k := 0 to n
        invariant Valid() && s.at == Starting(k) && |s.servers| == n && s.exitErr == old(s.exitErr)
      {
        Take(StartNext);
        Around();
      }
      Take(StartNext);
    }

    /** The loop that receives their results. */
    method CollectAll()
      requires Valid() && s.at == if |s.servers| == 0 then Cancelling else Collecting(|s.servers|)
      modifies this
      ensures Valid() && s.at == Cancelling && s.exitErr == old(s.exitErr)
    {
      var n := |s.servers|;
      for k := 0 to n
        invariant Valid() && |s.servers| == n && s.exitErr == old(s.exitErr)
        invariant s.at == if k == n then Cancelling else Collecting(n - k)
      {
        Around();
        CollectAny(n - k);
      }
    }

    /** Receives the next result. */
    method CollectAny(left: nat)
      requires Valid() && s.at == Collecting(left) && left > 0
      modifies this
      ensures Valid() && |s.servers| == |old(s.servers)| && s.exitErr == old(s.exitErr)
      ensures s.at == if left == 1 then Cancelling else Collecting(left - 1)
    {
      var k := AwaitResult();
      Take(Collect(k));
    }

    /** Waits for a shutdown call to return if none has. */
    method AwaitResult() returns (k: nat)
      requires Valid() && s.at.Collecting?
      modifies this
      ensures Valid() && SameRun(old(s), s)
      ensures k < |s.servers| && s.servers[k].Returned?
    {
      ghost var pending := CollectingOffers(states, steps);
      k :| k < |s.servers| && !s.servers[k].Collected?;
      if s.servers[k] == Stopping {
        var err: Error := *;
        Take(ShutdownReturns(k, err));
      }
    }

    /** The select: the first reason to stop, or any of those that are ready. */
    method Select()
      requires Valid() && s.at == Selecting
      modifies this
      ensures Valid() && s.at == Starting(0)
    {
      Around();
      if !s.signalled && !s.serve.Sent? && !s.metrics.Sent? {
        Take(Signal);
      }
      Choose();
    }

    method Choose()
      requires Valid() && s.at == Selecting && (s.signalled || s.serve.Sent? || s.metrics.Sent?)
      modifies this
      ensures Valid() && s.at == Starting(0)
    {
      if
      case s.signalled => Take(SelectSignal);
      case s.serve.Sent? => Take(SelectServe);
      case s.metrics.Sent? => Take(SelectMetrics);
    }

    /** Waits for the API listener's report unless it woke the select. */
    method ReceiveServeReport()
      requires Valid() && s.at == AwaitServe
      modifies this
      ensures Valid() && s.at == AwaitMetrics
    {
      Around();
      ReportsDue(states, steps);
      if s.serve == Waiting {
        var err: Error := *;
        Take(ServeReports(err));
      }
      Take(ReceiveServe);
    }

    method ReceiveMetricsReport()
      requires Valid() && s.at == AwaitMetrics
      modifies this
      ensures Valid() && s.at == Unwinding(DEFERRED)
    {
      Around();
      ReportsDue(states, steps);
      if s.metrics == Waiting {
        var err: Error := *;
        Take(MetricsReports(err));
      }
      Take(ReceiveMetrics);
    }

    /** awaitStop: waits for a reason to stop, drains in all cases, then waits for the listeners that
        have not reported yet. */
    method AwaitStop() returns (outcome: Outcome, ghost woke: nat)
      requires Valid() && s.at == Selecting
      modifies this
      ensures Valid() && s.at == Unwinding(DEFERRED) && AllShutDown(s, steps)
      ensures woke < |steps| && WokeWith(states[woke], steps[woke], s.exitErr)
      ensures Answers(outcome, s.exitErr, s.servers) && outcome == Verdict(s.exitErr, s.problems)
    {
      Select();
      Drain();
      ReceiveServeReport();
      ReceiveMetricsReport();
      outcome := Verdict(s.exitErr, s.problems);
      woke := WokenBy(states, steps, |steps|);
      UnwindingDrained(states, steps);
      VerdictAnswers(s);
      CollectedAreReal(states, steps);
    }

    /** Runs the deferred actions, last first. */
    method Unwind()
      requires Valid() && s.at == Unwinding(DEFERRED)
      modifies this
      ensures Valid() && s.at == Exited && s.exitErr == old(s.exitErr) && s.problems == old(s.problems)
    {
      var left: nat := DEFERRED;
      while left > 0
        invariant Valid() && left <= DEFERRED && s.at == Unwinding(left)
        invariant s.exitErr == old(s.exitErr) && s.problems == old(s.problems)
      {
        NextDeferred(left);
        left := left - 1;
      }
      Take(RunDeferred);
    }

    /** One deferred action, which may have to wait for the cleanup goroutine. */
    method NextDeferred(left: nat)
      requires Valid() && s.at == Unwinding(left) && 0 < left <= DEFERRED
      modifies this
      ensures Valid() && s.at == Unwinding(left - 1) && s.exitErr == old(s.exitErr) && s.problems == old(s.problems)
    {
      Around();
      if Deferral(left) == WaitCleanup && !s.cleanupDone {
        CleanupDue(states, steps);
        Take(CleanupExits);
      }
      Take(RunDeferred);
    }

    /** From serving to the end of the process: however the events arrive, it ends, and completely, and
        answers by what woke it and by how the servers shut down. */
    method Run() returns (outcome: Outcome, ghost woke: nat)
      requires Valid() && s.at == Selecting
      modifies this
      ensures Valid() && Complete(s) && AllShutDown(s, steps) && outcome == Verdict(s.exitErr, s.problems)
      ensures outcome == Clean <==>
              s.exitErr == None && forall k :: 0 <= k < |s.servers| ==> s.servers[k].err == None
      ensures woke < |steps| && WokeWith(states[woke], steps[woke], s.exitErr)
      ensures Answers(outcome, s.exitErr, s.servers)
    {
      outcome, woke := AwaitStop();
      Unwind();
      ExitIsComplete(states, steps);
      VerdictAnswers(s);
      CleanExit(s);
      woke := WokenBy(states, steps, |steps|);
      CollectedAreReal(states, steps);
    }
  }
}
