/**
 The task executor as an object: its maps, flags and the record of what it sent out, changed by one
 method for each block between awaits. Every method is proved equal to its step of `CodexExecutor`,
 so what holds in every run of the steps holds for the object.
 */
module CodexExecutorObject {
  import opened Common
  import opened CodexExecutor

  lemma NextPrefix(es: seq<ExecId>, i: nat)
    requires i < |es|
    ensures es[..i + 1][..i] == es[..i] && es[..i + 1][i] == es[i] && |es[..i + 1]| == i + 1
  { }

  class CodexTaskExecutor {
    var execs: map<ExecId, Execution>
    var activeWorkspaces: map<string, ExecId>
    var executions: map<string, ExecId>
    var executionByThread: map<string, ExecId>
    var executionByTurn: map<string, ExecId>
    var pendingAdmissions: map<string, Admission>
    var continuationAdmissions: set<string>
    var continuing: map<OpId, Continuing>
    var events: seq<Published>
    var requests: seq<RequestEvent>
    var closing: bool
    var next: nat

    ghost function State(): Executor
      reads this
    {
      Executor(execs, activeWorkspaces, executions, executionByThread, executionByTurn, pendingAdmissions,
        continuationAdmissions, continuing, events, requests, closing, next)
    }

    constructor ()
      ensures State() == START
    {
      execs, activeWorkspaces, executions, executionByThread, executionByTurn := map[], map[], map[], map[], map[];
      pendingAdmissions, continuationAdmissions, continuing := map[], {}, map[];
      events, requests, closing, next := [], [], false, 0;
    }

    // ---------------------------------------------------------------- finishing and removing

    method Announce(e: ExecId, event: Event)
      modifies this`events
      ensures State() == Publish(old(State()), e, event)
    {
      events := events + [Published(e, event)];
    }

    method FinishExecution(e: ExecId, state: FinalState)
      requires e in execs
      modifies this`execs, this`events, this`requests
      ensures State() == Finish(old(State()), e, state)
    {
      if execs[e].terminal { return; }
      var ex := execs[e];
      if ex.pending.Some? {
        requests := requests + [Discarded(ex.pending.value)];
        ex := ex.(pending := None);
      }
      ex := ex.(terminal := true);
      execs := execs[e := ex];
      if state == Completed { Announce(e, Artifact); }
      Announce(e, Final(state));
    }

    /** The loops over every execution when the runtime stops, in the order the map gives them. */
    method FinishEach(es: seq<ExecId>, state: FinalState)
      requires forall e | e in es :: e in execs
      modifies this`execs, this`events, this`requests
      ensures State() == FinishAll(old(State()), es, state)
    {
      var i := 0;
      assert es[..0] == [];
      while i < |es|
        invariant 0 <= i <= |es|
        invariant State() == FinishAll(old(State()), es[..i], state)
      {
        NextPrefix(es, i);
        FinishExecution(es[i], state);
        i := i + 1;
      }
      assert es[..|es|] == es;
    }

    method CleanupExecution(e: ExecId)
      requires e in execs
      modifies this`execs, this`activeWorkspaces, this`executions, this`executionByThread, this`executionByTurn
      ensures State() == Cleanup(old(State()), e)
    {
      hide WithoutOwn;
      var ex := execs[e];
      execs := execs[e := ex.(phase := Removed)];
      activeWorkspaces := DeleteOwn(activeWorkspaces, ex.key, e);
      executions := DeleteOwn(executions, ex.taskId, e);
      if ex.threadId.Some? { executionByThread := DeleteOwn(executionByThread, ex.threadId.value, e); }
      if ex.turnId.Some? { executionByTurn := DeleteOwn(executionByTurn, ex.turnId.value, e); }
    }

    /** Deletes the entry only when it is still this execution's. */
    method DeleteOwn(m: map<string, ExecId>, key: string, e: ExecId) returns (r: map<string, ExecId>)
      ensures r == WithoutOwn(m, key, e)
    {
      r := m;
      if key in m && m[key] == e { r := m - {key}; }
    }

    method FailAndCleanup(e: ExecId)
      requires e in execs
      modifies this
      ensures State() == FailAndRemove(old(State()), e)
    {
      FinishExecution(e, Failed);
      CleanupExecution(e);
    }

    // ---------------------------------------------------------------- the blocks of execute

    /** Answers whether the task was taken on; a refused one changes nothing. */
    method ExecuteTask(taskId: string, key: string, messageId: string, contextId: string) returns (taken: bool)
      modifies this
      ensures State() == Execute(old(State()), taskId, key, messageId, contextId)
      ensures taken <==> taskId !in old(executions) && !Busy(old(State()), key, messageId)
    {
      if taskId in executions || key in activeWorkspaces
        || (key in pendingAdmissions && pendingAdmissions[key].messageId != messageId)
      {
        return false;
      }
      taken := true;
      var e := Enter(taskId, key, contextId);
      Announce(e, InitialTask);
      if closing { FailAndCleanup(e); }
    }

    method Enter(taskId: string, key: string, contextId: string) returns (e: ExecId)
      modifies this`execs, this`pendingAdmissions, this`activeWorkspaces, this`executions, this`next
      ensures e == old(next)
      ensures State() == Update(old(State()), e,
                Execution(taskId, key, contextId, Validating, false, None, None, None, false, false, false, false)).(
                admissions := old(pendingAdmissions) - {key}, activeWorkspaces := old(activeWorkspaces)[key := e],
                executions := old(executions)[taskId := e], next := e + 1)
    {
      e := next;
      next := e + 1;
      execs := execs[e := Execution(taskId, key, contextId, Validating, false, None, None, None, false, false, false, false)];
      pendingAdmissions := pendingAdmissions - {key};
      activeWorkspaces := activeWorkspaces[key := e];
      executions := executions[taskId := e];
    }

    method WorkspaceValidated(e: ExecId, ok: bool)
      requires e in execs
      modifies this
      ensures State() == Validated(old(State()), e, ok)
    {
      if !ok {
        FailAndCleanup(e);
      } else if execs[e].terminal {
        CleanupExecution(e);
      } else {
        execs := execs[e := execs[e].(phase := CreatingThread)];
      }
    }

    method ThreadCreated(e: ExecId, thread: Option<string>)
      requires e in execs
      modifies this
      ensures State() == ThreadReady(old(State()), e, thread)
    {
      if thread.None? {
        FailAndCleanup(e);
        return;
      }
      execs := execs[e := execs[e].(threadId := thread)];
      if execs[e].terminal {
        CleanupExecution(e);
      } else if thread.value in executionByThread {
        FailAndCleanup(e);
      } else {
        executionByThread := executionByThread[thread.value := e];
        execs := execs[e := execs[e].(phase := Revalidating)];
      }
    }

    method WorkspaceRevalidated(e: ExecId, ok: bool)
      requires e in execs
      modifies this
      ensures State() == Revalidated(old(State()), e, ok)
    {
      if !ok {
        FailAndCleanup(e);
      } else if execs[e].terminal {
        CleanupExecution(e);
      } else {
        execs := execs[e := execs[e].(turnStarting := true, phase := StartingTurn)];
      }
    }

    /** Answers false for the conflict the source throws; then nothing changed. */
    method SetTurnId(e: ExecId, turn: string) returns (ok: bool)
      requires e in execs
      modifies this`execs, this`executionByTurn
      ensures ok <==> SetTurn(old(State()), e, turn).Some?
      ensures State() == if ok then SetTurn(old(State()), e, turn).value else old(State())
    {
      if execs[e].turnId.Some? && execs[e].turnId.value != turn { return false; }
      execs := execs[e := execs[e].(turnId := Some(turn))];
      executionByTurn := executionByTurn[turn := e];
      ok := true;
    }

    method AnnounceWorking(e: ExecId)
      requires e in execs
      modifies this`execs, this`events
      ensures State() == PublishWorking(old(State()), e)
    {
      if execs[e].terminal || execs[e].workingPublished { return; }
      execs := execs[e := execs[e].(workingPublished := true)];
      Announce(e, Working);
    }

    method TurnStartSettled(e: ExecId, turn: Option<string>)
      requires e in execs
      modifies this
      ensures State() == TurnSettled(old(State()), e, turn)
    {
      var known := false;
      if turn.Some? { known := SetTurnId(e, turn.value); }
      if known {
        AnnounceWorking(e);
        execs := execs[e := execs[e].(phase := AwaitingEnd)];
      } else if execs[e].turnStarting && !execs[e].terminal {
        closing := true;
        execs := execs[e := execs[e].(phase := Stopping)];
      } else {
        FailAndCleanup(e);
      }
    }

    // ---------------------------------------------------------------- admissions

    /** Answers the token that releases the admission, or none when the workspace is not free. */
    method AdmitMessage(key: string, messageId: string) returns (token: Option<nat>)
      modifies this`pendingAdmissions, this`next
      ensures State() == Admit(old(State()), key, messageId)
      ensures token.None? ==> State() == old(State())
      ensures token.Some? ==> key in pendingAdmissions && pendingAdmissions[key] == Admission(token.value, messageId)
    {
      if closing || key in activeWorkspaces || key in pendingAdmissions { return None; }
      token := Some(next);
      pendingAdmissions := pendingAdmissions[key := Admission(next, messageId)];
      next := next + 1;
    }

    method ReleaseAdmittedMessage(key: string, token: nat)
      modifies this`pendingAdmissions
      ensures State() == ReleaseAdmission(old(State()), key, token)
    {
      if key in pendingAdmissions && pendingAdmissions[key].token == token {
        pendingAdmissions := pendingAdmissions - {key};
      }
    }

    method AdmitAnswer(taskId: string) returns (admitted: bool)
      modifies this`continuationAdmissions
      ensures State() == AdmitContinuation(old(State()), taskId)
      ensures admitted <==> taskId !in old(continuationAdmissions) && taskId in continuationAdmissions
    {
      if taskId !in executions || executions[taskId] !in execs || taskId in continuationAdmissions { return false; }
      var ex := execs[executions[taskId]];
      if ex.pending.None? || ex.terminal { return false; }
      continuationAdmissions := continuationAdmissions + {taskId};
      admitted := true;
    }

    method ReleaseAnswer(taskId: string)
      modifies this`continuationAdmissions
      ensures State() == ReleaseContinuation(old(State()), taskId)
    {
      continuationAdmissions := continuationAdmissions - {taskId};
    }

    // ---------------------------------------------------------------- cancelling, closing, continuing

    /** Answers false when the task cannot be cancelled. */
    method CancelTask(taskId: string) returns (accepted: bool)
      modifies this`execs, this`events, this`requests
      ensures State() == Cancel(old(State()), taskId)
      ensures !accepted ==> State() == old(State())
    {
      if taskId !in executions { return false; }
      var e := executions[taskId];
      if e !in execs || execs[e].terminal { return false; }
      accepted := true;
      execs := execs[e := execs[e].(cancelRequested := true)];
      if !execs[e].turnStarting { FinishExecution(e, Canceled); }
    }

    method CloseExecution(e: ExecId)
      requires e in execs
      modifies this`execs, this`events, this`requests
      ensures State() == CloseOne(old(State()), e)
    {
      if execs[e].terminal { return; }
      if execs[e].threadId.None? || execs[e].turnId.None? {
        FinishExecution(e, Canceled);
      } else {
        execs := execs[e := execs[e].(cancelRequested := true)];
      }
    }

    method CloseExecutions(es: seq<ExecId>)
      requires forall e | e in es :: e in execs
      modifies this`execs, this`events, this`requests, this`closing
      ensures State() == Close(old(State()), es)
    {
      closing := true;
      ghost var began := State();
      var i := 0;
      assert es[..0] == [];
      while i < |es|
        invariant 0 <= i <= |es|
        invariant State() == CloseEach(began, es[..i])
      {
        NextPrefix(es, i);
        CloseExecution(es[i]);
        i := i + 1;
      }
      assert es[..|es|] == es;
    }

    /** Answers false for a task that waits for no answer, or an answer from another context. */
    method ContinueExecution(taskId: string, contextId: string) returns (waiting: bool)
      modifies this`continuing, this`next
      ensures State() == Continue(old(State()), taskId, contextId)
      ensures !waiting ==> State() == old(State())
    {
      if taskId !in executions || executions[taskId] !in execs { return false; }
      var ex := execs[executions[taskId]];
      if ex.terminal || ex.pending.None? || ex.contextId != contextId { return false; }
      waiting := true;
      continuing := continuing[next := Continuing(executions[taskId], ex.pending.value, false)];
      next := next + 1;
    }

    method AnswerDelivered(op: OpId, ok: bool)
      requires op in continuing && continuing[op].exec in execs
      modifies this
      ensures State() == AnswerSettled(old(State()), op, ok)
    {
      var e := continuing[op].exec;
      continuing := continuing - {op};
      if !ok { FinishExecution(e, Failed); }
    }

    method CompletionValidated(e: ExecId, meaningful: bool)
      requires e in execs
      modifies this
      ensures State() == Complete(old(State()), e, meaningful)
    {
      if meaningful { FinishExecution(e, Completed); } else { FinishExecution(e, Failed); }
    }

    method StopExecutions(es: seq<ExecId>, closes: bool)
      requires forall e | e in es :: e in execs
      modifies this
      ensures State() == StopAll(old(State()), es, closes)
    {
      closing := closing || closes;
      FinishEach(es, Failed);
    }

    method AnswersChecked(op: OpId, ok: bool)
      requires op in continuing && continuing[op].exec in execs
      modifies this
      ensures State() == ContinueChecked(old(State()), op, ok)
    {
      var c := continuing[op];
      var ex := execs[c.exec];
      continuing := continuing - {op};
      if ex.terminal || ex.pending != Some(c.pending) { return; }
      if !ok {
        Announce(c.exec, InputTask);
        Announce(c.exec, InputRequired);
        return;
      }
      execs := execs[c.exec := ex.(pending := None)];
      requests := requests + [Answered(c.pending)];
      continuing := continuing[op := c.(answering := true)];
      assert continuing == old(continuing)[op := c.(answering := true)];
      Announce(c.exec, WorkingTask);
      Announce(c.exec, Working);
    }

    // ---------------------------------------------------------------- events of the runtime

    method HandleServerRequest(turn: string, thread: string)
      modifies this
      ensures State() == Request(old(State()), turn, thread)
    {
      if turn !in executionByTurn { return; }
      var e := executionByTurn[turn];
      if e !in execs || execs[e].turnId != Some(turn) || execs[e].threadId != Some(thread) || execs[e].terminal { return; }
      if execs[e].pending.Some? {
        FinishExecution(e, Failed);
        return;
      }
      requests := requests + [Taken(next)];
      execs := execs[e := execs[e].(pending := Some(next))];
      next := next + 1;
      Announce(e, InputRequired);
    }

    method HandleNotification(e: ExecId, n: Notification)
      requires e in execs
      modifies this
      ensures State() == Notified(old(State()), e, n)
    {
      match n
      case TurnStarted(turn) =>
        var ok := SetTurnId(e, turn);
        if ok { AnnounceWorking(e); }
      case ItemStarted => AnnounceWorking(e);
      case TurnEnded(ended, status) =>
        if ended.Some? {
          var ok := SetTurnId(e, ended.value);
          if !ok { return; }
        }
        if status == TurnCompleted {
          if execs[e].pending.Some? || execs[e].terminal || execs[e].completionPending { return; }
          execs := execs[e := execs[e].(completionPending := true)];
        } else if status == TurnInterrupted {
          FinishExecution(e, Canceled);
        } else {
          FinishExecution(e, Failed);
        }
    }
  }
}
