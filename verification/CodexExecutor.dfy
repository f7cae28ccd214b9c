/**
 The Codex task executor: one workspace slot per execution, reverse requests that pause an
 execution, and many ways for an execution to finish. Every function is one block between awaits or
 one event handler; workspaces, threads, turns and answers are whatever the outside reports.
 */
module CodexExecutor {
  import opened Common

  type ExecId = nat
  type Stamp = nat          // the identity of one pending-input object
  type OpId = nat

  datatype FinalState = Completed | Failed | Canceled

  datatype Event = InitialTask | WorkingTask | Working | InputTask | InputRequired | Artifact | Final(state: FinalState)

  datatype Published = Published(exec: ExecId, event: Event)

  datatype RequestEvent = Taken(stamp: Stamp) | Answered(stamp: Stamp) | Discarded(stamp: Stamp)

  datatype Phase = Validating | CreatingThread | Revalidating | StartingTurn | AwaitingEnd | Stopping | Removed

  datatype Execution = Execution(
    taskId: string, key: string, contextId: string, phase: Phase,
    terminal: bool, pending: Option<Stamp>, threadId: Option<string>, turnId: Option<string>,
    turnStarting: bool, workingPublished: bool, completionPending: bool, cancelRequested: bool)

  datatype Admission = Admission(token: nat, messageId: string)

  /** A continuation that waits for its workspace check, or for its answer to be delivered. */
  datatype Continuing = Continuing(exec: ExecId, pending: Stamp, answering: bool)

  datatype Executor = Executor(
    execs: map<ExecId, Execution>,
    activeWorkspaces: map<string, ExecId>, executions: map<string, ExecId>,
    byThread: map<string, ExecId>, byTurn: map<string, ExecId>,
    admissions: map<string, Admission>, continuationAdmissions: set<string>,
    continuing: map<OpId, Continuing>,
    events: seq<Published>, requests: seq<RequestEvent>,
    closing: bool, next: nat)

  function Update(x: Executor, e: ExecId, ex: Execution): Executor {
    x.(execs := x.execs[e := ex])
  }

  function Publish(x: Executor, e: ExecId, event: Event): Executor {
    x.(events := x.events + [Published(e, event)])
  }

  function WithoutOwn(m: map<string, ExecId>, key: string, e: ExecId): map<string, ExecId> {
    if key in m && m[key] == e then m - {key} else m
  }

  // ---------------------------------------------------------------- finishing and removing

  function Dropped(pending: Option<Stamp>): seq<RequestEvent> {
    if pending.Some? then [Discarded(pending.value)] else []
  }

  function Shown(state: FinalState, e: ExecId): seq<Published> {
    if state == Completed then [Published(e, Artifact)] else []
  }

  /** Discards a pending request, then publishes the one final status, after the artifact if there is one. */
  function Finish(x: Executor, e: ExecId, state: FinalState): (r: Executor)
    requires e in x.execs
    ensures r.execs.Keys == x.execs.Keys
  {
    var ex := x.execs[e];
    if ex.terminal then x
    else
      x.(execs := x.execs[e := ex.(pending := None, terminal := true)],
         requests := x.requests + Dropped(ex.pending),
         events := x.events + Shown(state, e) + [Published(e, Final(state))])
  }

  function FinishAll(x: Executor, es: seq<ExecId>, state: FinalState): Executor
    requires forall e | e in es :: e in x.execs
    ensures FinishAll(x, es, state).execs.Keys == x.execs.Keys
    decreases |es|
  {
    if es == [] then x
    else
      hide Finish;
      var n := |es| - 1;
      Finish(FinishAll(x, es[..n], state), es[n], state)
  }

  function Cleanup(x: Executor, e: ExecId): Executor
    requires e in x.execs
  {
    var ex := x.execs[e];
    Update(x, e, ex.(phase := Removed)).(
      activeWorkspaces := WithoutOwn(x.activeWorkspaces, ex.key, e),
      executions := WithoutOwn(x.executions, ex.taskId, e),
      byThread := if ex.threadId.Some? then WithoutOwn(x.byThread, ex.threadId.value, e) else x.byThread,
      byTurn := if ex.turnId.Some? then WithoutOwn(x.byTurn, ex.turnId.value, e) else x.byTurn)
  }

  function FailAndRemove(x: Executor, e: ExecId): Executor
    requires e in x.execs
  {
    Cleanup(Finish(x, e, Failed), e)
  }

  // ---------------------------------------------------------------- execute

  predicate Busy(x: Executor, key: string, messageId: string) {
    key in x.activeWorkspaces || (key in x.admissions && x.admissions[key].messageId != messageId)
  }

  /** A new task; a task id that is running already is a continuation instead. */
  function Execute(x: Executor, taskId: string, key: string, messageId: string, contextId: string): Executor {
    if taskId in x.executions || Busy(x, key, messageId) then x
    else
      var e := x.next;
      var ex := Execution(taskId, key, contextId, Validating, false, None, None, None, false, false, false, false);
      var entered := Publish(Update(x, e, ex).(
        admissions := x.admissions - {key}, activeWorkspaces := x.activeWorkspaces[key := e],
        executions := x.executions[taskId := e], next := e + 1), e, InitialTask);
      if x.closing then FailAndRemove(entered, e) else entered
  }

  function Validated(x: Executor, e: ExecId, ok: bool): Executor
    requires e in x.execs
  {
    if !ok then FailAndRemove(x, e)
    else if x.execs[e].terminal then Cleanup(x, e)
    else Update(x, e, x.execs[e].(phase := CreatingThread))
  }

  function ThreadReady(x: Executor, e: ExecId, thread: Option<string>): Executor
    requires e in x.execs
  {
    if thread.None? then FailAndRemove(x, e)
    else
      var named := Update(x, e, x.execs[e].(threadId := thread));
      if x.execs[e].terminal then Cleanup(named, e)
      else if thread.value in x.byThread then FailAndRemove(named, e)
      else Update(named, e, named.execs[e].(phase := Revalidating)).(byThread := x.byThread[thread.value := e])
  }

  function Revalidated(x: Executor, e: ExecId, ok: bool): Executor
    requires e in x.execs
  {
    if !ok then FailAndRemove(x, e)
    else if x.execs[e].terminal then Cleanup(x, e)
    else Update(x, e, x.execs[e].(turnStarting := true, phase := StartingTurn))
  }

  /** None when the turn id conflicts with the one already known. */
  function SetTurn(x: Executor, e: ExecId, turn: string): (r: Option<Executor>)
    requires e in x.execs
    ensures r.Some? ==> r.value.execs.Keys == x.execs.Keys
  {
    var ex := x.execs[e];
    if ex.turnId.Some? && ex.turnId.value != turn then None
    else Some(Update(x, e, ex.(turnId := Some(turn))).(byTurn := x.byTurn[turn := e]))
  }

  function PublishWorking(x: Executor, e: ExecId): (r: Executor)
    requires e in x.execs
    ensures r.execs.Keys == x.execs.Keys
  {
    var ex := x.execs[e];
    if ex.terminal || ex.workingPublished then x
    else Publish(Update(x, e, ex.(workingPublished := true)), e, Working)
  }

  /** startTurn settled; without a turn nobody knows whether it runs, so the runtime is stopped. */
  function TurnSettled(x: Executor, e: ExecId, turn: Option<string>): Executor
    requires e in x.execs
  {
    var outcome := if turn.None? then None else SetTurn(x, e, turn.value);
    match outcome
    case Some(y) =>
      var z := PublishWorking(y, e);
      Update(z, e, z.execs[e].(phase := AwaitingEnd))
    case None =>
      if x.execs[e].turnStarting && !x.execs[e].terminal
      then Update(x.(closing := true), e, x.execs[e].(phase := Stopping))
      else FailAndRemove(x, e)
  }

  /** The runtime was stopped, or timed out after a cancellation, or its connection closed. */
  function StopAll(x: Executor, es: seq<ExecId>, closing: bool): Executor
    requires forall e | e in es :: e in x.execs
  {
    FinishAll(x.(closing := x.closing || closing), es, Failed)
  }

  // ---------------------------------------------------------------- admissions

  function Admit(x: Executor, key: string, messageId: string): Executor {
    if x.closing || key in x.activeWorkspaces || key in x.admissions then x
    else x.(admissions := x.admissions[key := Admission(x.next, messageId)], next := x.next + 1)
  }

  function ReleaseAdmission(x: Executor, key: string, token: nat): Executor {
    if key in x.admissions && x.admissions[key].token == token then x.(admissions := x.admissions - {key}) else x
  }

  function AdmitContinuation(x: Executor, taskId: string): Executor {
    if taskId !in x.executions || x.executions[taskId] !in x.execs then x
    else
      var ex := x.execs[x.executions[taskId]];
      if taskId in x.continuationAdmissions || ex.pending.None? || ex.terminal then x
      else x.(continuationAdmissions := x.continuationAdmissions + {taskId})
  }

  function ReleaseContinuation(x: Executor, taskId: string): Executor {
    x.(continuationAdmissions := x.continuationAdmissions - {taskId})
  }

  // ---------------------------------------------------------------- cancelling and closing

  function Cancel(x: Executor, taskId: string): Executor {
    if taskId !in x.executions || x.executions[taskId] !in x.execs || x.execs[x.executions[taskId]].terminal then x
    else
      var e := x.executions[taskId];
      var asked := Update(x, e, x.execs[e].(cancelRequested := true));
      if x.execs[e].turnStarting then asked else Finish(asked, e, Canceled)
  }

  /** One active execution during close: without a turn to interrupt it is finished at once. */
  function CloseOne(x: Executor, e: ExecId): (r: Executor)
    requires e in x.execs
    ensures r.execs.Keys == x.execs.Keys
  {
    var ex := x.execs[e];
    if ex.terminal then x
    else if ex.threadId.None? || ex.turnId.None? then Finish(x, e, Canceled)
    else Update(x, e, ex.(cancelRequested := true))
  }

  function CloseEach(x: Executor, es: seq<ExecId>): (r: Executor)
    requires forall e | e in es :: e in x.execs
    ensures r.execs.Keys == x.execs.Keys
    decreases |es|
  {
    if es == [] then x else CloseOne(CloseEach(x, es[..|es| - 1]), es[|es| - 1])
  }

  function Close(x: Executor, es: seq<ExecId>): Executor
    requires forall e | e in es :: e in x.execs
  {
    CloseEach(x.(closing := true), es)
  }

  // ---------------------------------------------------------------- continuing

  /** The checks before the workspace of a paused task is validated again. */
  function Continue(x: Executor, taskId: string, contextId: string): Executor {
    if taskId !in x.executions || x.executions[taskId] !in x.execs then x
    else
      var ex := x.execs[x.executions[taskId]];
      if ex.terminal || ex.pending.None? || ex.contextId != contextId then x
      else x.(continuing := x.continuing[x.next := Continuing(x.executions[taskId], ex.pending.value, false)], next := x.next + 1)
  }

  /** The answers were checked; a request that is no longer the pending one is left alone. */
  function ContinueChecked(x: Executor, op: OpId, ok: bool): Executor
    requires op in x.continuing && x.continuing[op].exec in x.execs
  {
    var c := x.continuing[op];
    var ex := x.execs[c.exec];
    var over := x.(continuing := x.continuing - {op});
    if ex.terminal || ex.pending != Some(c.pending) then over
    else if !ok then Publish(Publish(over, c.exec, InputTask), c.exec, InputRequired)
    else
      var answered := Update(x, c.exec, ex.(pending := None)).(
        requests := x.requests + [Answered(c.pending)], continuing := x.continuing[op := c.(answering := true)]);
      Publish(Publish(answered, c.exec, WorkingTask), c.exec, Working)
  }

  function AnswerSettled(x: Executor, op: OpId, ok: bool): Executor
    requires op in x.continuing && x.continuing[op].exec in x.execs
  {
    var over := x.(continuing := x.continuing - {op});
    if ok then over else Finish(over, x.continuing[op].exec, Failed)
  }

  // ---------------------------------------------------------------- events of the runtime

  function FindExecution(x: Executor, turn: Option<string>, thread: Option<string>): Option<ExecId> {
    if turn.Some? && turn.value in x.byTurn then Some(x.byTurn[turn.value])
    else if thread.Some? && thread.value in x.byThread then Some(x.byThread[thread.value])
    else None
  }

  datatype TurnStatus = TurnCompleted | TurnInterrupted | TurnFailed | TurnOther

  datatype Notification = TurnStarted(turn: string) | ItemStarted | TurnEnded(ended: Option<string>, status: TurnStatus)

  function Notified(x: Executor, e: ExecId, n: Notification): Executor
    requires e in x.execs
  {
    match n
    case TurnStarted(turn) => (match SetTurn(x, e, turn) case Some(y) => PublishWorking(y, e) case None => x)
    case ItemStarted => PublishWorking(x, e)
    case TurnEnded(ended, status) =>
      var outcome := if ended.None? then Some(x) else SetTurn(x, e, ended.value);
      match outcome
      case None => x
      case Some(y) =>
        if status == TurnCompleted then
          if y.execs[e].pending.Some? || y.execs[e].terminal || y.execs[e].completionPending then y
          else Update(y, e, y.execs[e].(completionPending := true))
        else if status == TurnInterrupted then Finish(y, e, Canceled)
        else Finish(y, e, Failed)
  }

  /** The workspace was validated after a completed turn. */
  function Complete(x: Executor, e: ExecId, meaningful: bool): Executor
    requires e in x.execs
  {
    Finish(x, e, if meaningful then Completed else Failed)
  }

  /** A reverse request pauses its execution; a second one before the answer fails it. */
  function Request(x: Executor, turn: string, thread: string): Executor {
    if turn !in x.byTurn || x.byTurn[turn] !in x.execs then x
    else
      var e := x.byTurn[turn];
      var ex := x.execs[e];
      if ex.turnId != Some(turn) || ex.threadId != Some(thread) || ex.terminal then x
      else if ex.pending.Some? then Finish(x, e, Failed)      // the new request is discarded without being taken
      else
        Publish(Update(x, e, ex.(pending := Some(x.next))).(requests := x.requests + [Taken(x.next)], next := x.next + 1), e, InputRequired)
  }

  // ---------------------------------------------------------------- runs

  datatype Step =
    | ExecuteStep(taskId: string, key: string, messageId: string, contextId: string)
    | ValidatedStep(exec: ExecId, ok: bool)
    | ThreadStep(exec: ExecId, thread: Option<string>)
    | RevalidatedStep(exec: ExecId, ok: bool)
    | TurnStep(exec: ExecId, turn: Option<string>)
    | EndStep(exec: ExecId)
    | StopAllStep(order: seq<ExecId>, closes: bool)
    | FinishStep(exec: ExecId, state: FinalState)
    | AdmitStep(key: string, messageId: string)
    | ReleaseAdmissionStep(key: string, token: nat)
    | AdmitContinuationStep(taskId: string)
    | ReleaseContinuationStep(taskId: string)
    | CancelStep(taskId: string)
    | CloseStep(order: seq<ExecId>)
    | ContinueStep(taskId: string, contextId: string)
    | ContinueCheckedStep(op: OpId, ok: bool)
    | AnswerStep(op: OpId, ok: bool)
    | NotifyStep(turnOf: Option<string>, threadOf: Option<string>, notification: Notification)
    | CompleteStep(exec: ExecId, ok: bool)
    | RequestStep(turnName: string, threadName: string)

  predicate InPhase(x: Executor, e: ExecId, phase: Phase) {
    e in x.execs && x.execs[e].phase == phase
  }

  /**
   `FinishStep` is a failed interrupt or a timeout while closing, and `EndStep` the end of an
   execution's own flow once its terminal promise is resolved or the runtime is stopped.
   */
  predicate Enabled(x: Executor, step: Step) {
    match step
    case ValidatedStep(e, _) => InPhase(x, e, Validating)
    case ThreadStep(e, _) => InPhase(x, e, CreatingThread)
    case RevalidatedStep(e, _) => InPhase(x, e, Revalidating)
    case TurnStep(e, _) => InPhase(x, e, StartingTurn)
    case EndStep(e) => (InPhase(x, e, AwaitingEnd) && x.execs[e].terminal) || InPhase(x, e, Stopping)
    case StopAllStep(order, _) => forall e | e in order :: e in x.execs
    case FinishStep(e, state) => e in x.execs && x.closing && state != Completed
    case CloseStep(order) => forall e | e in order :: e in x.execs
    case ContinueCheckedStep(op, _) => op in x.continuing && !x.continuing[op].answering && x.continuing[op].exec in x.execs
    case AnswerStep(op, _) => op in x.continuing && x.continuing[op].answering && x.continuing[op].exec in x.execs
    case NotifyStep(turn, thread, _) => FindExecution(x, turn, thread).Some? && FindExecution(x, turn, thread).value in x.execs
    case CompleteStep(e, _) => e in x.execs && x.execs[e].completionPending
    case _ => true
  }

  function Perform(x: Executor, step: Step): Executor
    requires Enabled(x, step)
  {
    match step
    case ExecuteStep(taskId, key, messageId, contextId) => Execute(x, taskId, key, messageId, contextId)
    case ValidatedStep(e, ok) => Validated(x, e, ok)
    case ThreadStep(e, thread) => ThreadReady(x, e, thread)
    case RevalidatedStep(e, ok) => Revalidated(x, e, ok)
    case TurnStep(e, turn) => TurnSettled(x, e, turn)
    case EndStep(e) => FailAndRemove(x, e)
    case StopAllStep(order, closes) => StopAll(x, order, closes)
    case FinishStep(e, state) => Finish(x, e, state)
    case AdmitStep(key, messageId) => Admit(x, key, messageId)
    case ReleaseAdmissionStep(key, token) => ReleaseAdmission(x, key, token)
    case AdmitContinuationStep(taskId) => AdmitContinuation(x, taskId)
    case ReleaseContinuationStep(taskId) => ReleaseContinuation(x, taskId)
    case CancelStep(taskId) => Cancel(x, taskId)
    case CloseStep(order) => Close(x, order)
    case ContinueStep(taskId, contextId) => Continue(x, taskId, contextId)
    case ContinueCheckedStep(op, ok) => ContinueChecked(x, op, ok)
    case AnswerStep(op, ok) => AnswerSettled(x, op, ok)
    case NotifyStep(turn, thread, n) => Notified(x, FindExecution(x, turn, thread).value, n)
    case CompleteStep(e, ok) => Complete(x, e, ok)
    case RequestStep(turn, thread) => Request(x, turn, thread)
  }

  function Apply(x: Executor, step: Step): Executor {
    if Enabled(x, step) then Perform(x, step) else x
  }

  const START := Executor(map[], map[], map[], map[], map[], map[], {}, map[], [], [], false, 0)

  function Run(steps: seq<Step>): Executor {
    if steps == [] then START else Apply(Run(steps[..|steps| - 1]), steps[|steps| - 1])
  }
}
