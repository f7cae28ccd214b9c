/**
 The AgentCall service as an object beside the Async Tool Task service it drives: its records, its
 running operations and the sets of active ones, changed by one method for each block between awaits.
 Every method is proved equal to its function in `AgentCallService`.
 */
module AgentCallServiceObject {
  import opened Common
  import opened SessionTaskQuota
  import opened AsyncTaskFacts
  import opened AsyncTaskService
  import opened AgentCallService
  import opened AsyncTaskServiceObject

  class AgentCalls {
    const tasks: AsyncToolTaskService
    const agentId: string
    var submits: map<CallId, Submit>
    var invokes: map<CallId, Invoke>
    var blockingBySource: map<Source, CallId>
    var dispatches: seq<Dispatch>
    var recordsByAgentCallId: map<CallId, Record>
    var agentCallIdByRemoteTaskId: map<RemoteId, CallId>
    var taskBackedCalls: set<CallId>
    var terminalHandled: set<CallId>
    var watchers: map<OpId, Watcher>
    var activeWatchers: map<CallId, OpId>
    var cancels: map<OpId, Cancel>
    var activeCancels: map<RemoteId, OpId>
    var continues: map<OpId, Continue>
    var activeContinues: map<RemoteId, OpId>
    var abortedOps: set<OpId>
    var nextOp: OpId
    var closed: bool

    ghost function EntryState(): Entry
      reads this
    {
      Entry(submits, invokes, blockingBySource, dispatches)
    }

    ghost function CallState(): Calls
      reads this
    {
      Calls(recordsByAgentCallId, agentCallIdByRemoteTaskId, taskBackedCalls, terminalHandled)
    }

    ghost function FlowState(): Flow
      reads this
    {
      Flow(watchers, activeWatchers, cancels, activeCancels, continues, activeContinues, abortedOps, nextOp)
    }

    ghost function State(): Hub
      reads this, tasks, tasks.store, tasks.quota
    {
      Hub(tasks.State(), EntryState(), CallState(), FlowState(), closed)
    }

    constructor (tasks: AsyncToolTaskService, agentId: string)
      ensures this.tasks == tasks && this.agentId == agentId
      ensures State() == Open(tasks.State(), [])
    {
      this.tasks, this.agentId := tasks, agentId;
      submits, invokes, blockingBySource, dispatches := map[], map[], map[], [];
      recordsByAgentCallId, agentCallIdByRemoteTaskId, taskBackedCalls, terminalHandled := map[], map[], {}, {};
      watchers, activeWatchers, cancels, activeCancels, continues, activeContinues := map[], map[], map[], map[], map[], map[];
      abortedOps, nextOp, closed := {}, 0, false;
    }

    // ---------------------------------------------------------------- watchers

    method BeginWatcher(id: CallId, initial: Snapshot)
      modifies this`watchers, this`activeWatchers, this`nextOp
      ensures FlowState() == StartWatcher(old(FlowState()), id, initial)
    {
      watchers := watchers[nextOp := Watcher(id, initial, WatchQueued)];
      activeWatchers := activeWatchers[id := nextOp];
      nextOp := nextOp + 1;
    }

    method StopWatcher(op: OpId)
      requires op in watchers
      modifies this`watchers, this`activeWatchers
      ensures FlowState() == EndWatcher(old(FlowState()), op)
    {
      var id := watchers[op].callId;
      watchers := watchers - {op};
      if id in activeWatchers && activeWatchers[id] == op { activeWatchers := activeWatchers - {id}; }
    }

    method SignalWatcher(id: CallId)
      modifies this`abortedOps
      ensures FlowState() == AbortWatcher(old(FlowState()), id)
    {
      if id in activeWatchers { abortedOps := abortedOps + {activeWatchers[id]}; }
    }

    method WatchIn(op: OpId, phase: WatchPhase)
      requires op in watchers
      modifies this`watchers
      ensures FlowState() == SetWatchPhase(old(FlowState()), op, phase)
    {
      watchers := watchers[op := watchers[op].(phase := phase)];
    }

    // ---------------------------------------------------------------- asynchronous submission

    method Submit(r: CallRequest, id: CallId, now: int, io: Io)
      modifies this, tasks, tasks.store, tasks.quota
      ensures State() == SubmitAsync(old(State()), r, id, now, io)
    {
      hide Reserve;
      if closed { return; }
      var reserved := tasks.ReserveTask(EmptyRequest(r), id, now, io);
      match reserved
      case Ok(Reserved(t)) => submits := submits[id := AgentCallService.Submit(r, t, Discovering)];
      case _ =>
    }

    method SubmitIn(id: CallId, phase: Phase)
      requires id in submits
      modifies this`submits
      ensures EntryState() == old(EntryState()).(submits := old(submits)[id := old(submits)[id].(phase := phase)])
    {
      submits := submits[id := submits[id].(phase := phase)];
    }

    /** The transport is entered only while the service is open; the dispatch is recorded first. */
    method OnSubmitCapability(id: CallId, found: bool)
      requires id in submits
      modifies this`submits, this`dispatches
      ensures State() == SubmitCapability(old(State()), id, found)
    {
      if !found || closed {
        SubmitIn(id, Failing(Preaccept));
      } else {
        dispatches := dispatches + [Dispatch(submits[id].request.source, Async)];
        SubmitIn(id, AtTransport);
      }
    }

    method AcceptTaskOrRetain(id: CallId, sub: AgentCallService.Submit, record: Record, now: int, io: Io)
      returns (e: Option<TaskError>)
      modifies tasks, tasks.store, tasks.quota
      ensures (tasks.State(), e) == AcceptOrRetain(old(tasks.State()), agentId, id, sub, record, now, io)
    {
      hide Accept, RetainUncertain;
      var reference := Some(AcceptedReference(agentId, id, record));
      var accepted := tasks.AcceptTask(record.source.sessionId, id, UpdateOf(record), reference, now, io);
      if accepted.Ok? { return None; }
      if !accepted.error.Persistence? { return Some(accepted.error); }
      var retained := tasks.RetainPersistenceUncertain(id, TaskRequest(sub.request, record.artifacts, record.questions), None,
        Some(sub.task), None, reference, now, io);
      e := if retained.Ok? then None else Some(retained.error);
    }

    method RecordNewCall(id: CallId, record: Record)
      modifies this`recordsByAgentCallId, this`agentCallIdByRemoteTaskId
      ensures CallState() == RecordCall(old(CallState()), id, record)
    {
      recordsByAgentCallId := recordsByAgentCallId[id := record];
      agentCallIdByRemoteTaskId := agentCallIdByRemoteTaskId[record.remoteId := id];
    }

    method OnSubmitReply(id: CallId, reply: Reply, now: int, io: Io)
      requires id in submits
      modifies this, tasks, tasks.store, tasks.quota
      ensures State() == SubmitReply(old(State()), agentId, id, reply, now, io)
    {
      hide AcceptOrRetain, RecordCall, StartWatcher, NewRecord, AsyncToolTaskService.State;
      match reply
      case NotDispatched => SubmitIn(id, Failing(Preaccept));
      case Uncertain => SubmitIn(id, Failing(DispatchUncertain));
      case Accepted(snapshot) =>
        if closed {
          SubmitIn(id, Failing(Shutdown));
        } else if snapshot.remoteId in agentCallIdByRemoteTaskId {
          SubmitIn(id, Failing(RemoteConflict));
        } else {
          AdmitSubmission(id, snapshot, now, io);
        }
    }

    /** The record and the remote index exist before the task is accepted; the watcher starts after it. */
    method AdmitSubmission(id: CallId, snapshot: Snapshot, now: int, io: Io)
      requires id in submits && !closed && snapshot.remoteId !in agentCallIdByRemoteTaskId
      modifies this, tasks, tasks.store, tasks.quota
      ensures State() == SubmitReply(old(State()), agentId, id, Accepted(snapshot), now, io)
    {
      hide AcceptOrRetain, RecordCall, StartWatcher, NewRecord, AsyncToolTaskService.State;
      var sub := submits[id];
      var record := NewRecord(sub.request, snapshot, false);
      RecordNewCall(id, record);
      var e := AcceptTaskOrRetain(id, sub, record, now, io);
      if e.Some? { SubmitIn(id, Failing(Bookkeeping)); } else { FinishAdmission(id, snapshot); }
    }

    method FinishAdmission(id: CallId, snapshot: Snapshot)
      modifies this`submits, this`taskBackedCalls, this`watchers, this`activeWatchers, this`nextOp
      ensures EntryState() == old(EntryState()).(submits := old(submits) - {id})
      ensures CallState() == old(CallState()).(taskBacked := old(taskBackedCalls) + {id})
      ensures FlowState() == StartWatcher(old(FlowState()), id, snapshot)
    {
      submits := submits - {id};
      taskBackedCalls := taskBackedCalls + {id};
      BeginWatcher(id, snapshot);
    }

    method OnSubmitFailure(id: CallId, text: string, readable: bool, now: int, io: Io)
      requires id in submits && submits[id].phase.Failing?
      modifies this, tasks, tasks.store, tasks.quota
      ensures State() == SubmitFail(old(State()), agentId, id, text, readable, now, io)
    {
      hide Accept, RejectBeforeAcceptance, Get;
      var sub := submits[id];
      var session := sub.request.source.sessionId;
      submits := submits - {id};
      var found := Get(tasks.State(), session, id, readable);
      if found.Err? || found.value.None? || found.value.value.state != Submitting { return; }
      if sub.phase.why == Preaccept || sub.phase.why == RemoteConflict {
        var _ := tasks.RejectTaskBeforeAcceptance(session, id, text, now, io);
      } else {
        var reference := if sub.phase.why == DispatchUncertain then Some(UncertainReference(agentId, id, sub.request)) else None;
        var _ := tasks.AcceptTask(session, id, Update(Unknown, NewPayload(PayloadOf("[]", None)), None), reference, now, io);
      }
    }

    // ---------------------------------------------------------------- blocking invocation

    method Invoke(r: CallRequest, id: CallId, readable: bool)
      modifies this, tasks.quota
      ensures State() == InvokeBlocking(old(State()), r, id, readable)
    {
      hide GetBySource, Acquire;
      if closed || GetBySource(tasks.State(), r.source, readable) != Ok(None) || r.source in blockingBySource {
        return;
      }
      var admission := tasks.quota.AcquireLease(r.source.sessionId, A2A);
      match admission
      case Ok(Acquired(lease)) =>
        invokes := invokes[id := AgentCallService.Invoke(r, lease, Discovering)];
        blockingBySource := blockingBySource[r.source := id];
      case Ok(LimitReached(_, _)) => RefusedKeeps(old(tasks.quota.State()), r.source.sessionId, A2A);
      case Err(_) => RefusedKeeps(old(tasks.quota.State()), r.source.sessionId, A2A);
    }

    method InvokeIn(id: CallId, phase: Phase)
      requires id in invokes
      modifies this`invokes
      ensures EntryState() == old(EntryState()).(invokes := old(invokes)[id := old(invokes)[id].(phase := phase)])
    {
      invokes := invokes[id := invokes[id].(phase := phase)];
    }

    method ForgetInvoke(id: CallId)
      requires id in invokes
      modifies this`invokes, this`blockingBySource
      ensures State() == EndInvoke(old(State()), id)
    {
      var source := invokes[id].request.source;
      invokes := invokes - {id};
      if source in blockingBySource && blockingBySource[source] == id { blockingBySource := blockingBySource - {source}; }
    }

    method OnInvokeCapability(id: CallId, found: bool)
      requires id in invokes
      modifies this`invokes, this`dispatches
      ensures State() == InvokeCapability(old(State()), id, found)
    {
      if !found || closed {
        InvokeIn(id, Failing(Preaccept));
      } else {
        dispatches := dispatches + [Dispatch(invokes[id].request.source, Blocking)];
        InvokeIn(id, AtTransport);
      }
    }

    method OnInvokeReply(id: CallId, reply: Reply)
      requires id in invokes
      modifies this
      ensures State() == InvokeReply(old(State()), id, reply)
    {
      hide RecordCall, StartWatcher, NewRecord, AsyncToolTaskService.State;
      match reply
      case NotDispatched => InvokeIn(id, Failing(Preaccept));
      case Uncertain => InvokeIn(id, Failing(DispatchUncertain));
      case Accepted(snapshot) =>
        if closed {
          InvokeIn(id, Failing(Shutdown));
        } else if snapshot.remoteId in agentCallIdByRemoteTaskId {
          InvokeIn(id, Failing(RemoteConflict));
        } else {
          BeginWait(id, NewRecord(invokes[id].request, snapshot, true), snapshot);
        }
    }

    method BeginWait(id: CallId, record: Record, snapshot: Snapshot)
      requires id in invokes
      modifies this
      ensures EntryState() == old(EntryState()).(invokes := old(invokes)[id := old(invokes)[id].(phase := Waiting)])
      ensures CallState() == RecordCall(old(CallState()), id, record)
      ensures FlowState() == StartWatcher(old(FlowState()), id, snapshot) && closed == old(closed)
    {
      RecordNewCall(id, record);
      BeginWatcher(id, snapshot);
      InvokeIn(id, Waiting);
    }

    method OnInvokeFailure(id: CallId, now: int, io: Io)
      requires id in invokes && invokes[id].phase.Failing?
      modifies this, tasks, tasks.store, tasks.quota
      ensures State() == InvokeFail(old(State()), agentId, id, now, io)
    {
      hide Adopt, Release;
      var inv := invokes[id];
      if inv.phase.why != DispatchUncertain {
        var _ := tasks.quota.ReleaseLease(inv.lease);
      } else {
        var adopted := tasks.AdoptAcceptedTask(id, EmptyRequest(inv.request), None, inv.lease,
          Some(UncertainReference(agentId, id, inv.request)), now, io);
        if adopted.Err? && !adopted.error.Persistence? { var _ := tasks.quota.ReleaseLease(inv.lease); }
      }
      ForgetInvoke(id);
    }

    /** The handle that the call kept is given back, however the wait ended. */
    method OnInvokeDone(id: CallId)
      requires id in invokes
      modifies this, tasks.quota
      ensures State() == InvokeDone(old(State()), id)
    {
      hide Release;
      var _ := tasks.quota.ReleaseLease(invokes[id].lease);
      ForgetInvoke(id);
    }

    // ---------------------------------------------------------------- applying a snapshot

    /** Writes the record first, and puts the old one back when the store failed. */
    method ApplySnapshotOnce(id: CallId, snapshot: Snapshot, now: int, io: Io) returns (e: Option<TaskError>)
      requires id in recordsByAgentCallId
      modifies this`recordsByAgentCallId, this`terminalHandled, tasks, tasks.store, tasks.quota
      ensures (tasks.State(), CallState(), e) == ApplyOnce(old(tasks.State()), old(CallState()), id, snapshot, now, io)
    {
      hide UpdateAccepted, Updated;
      if id in terminalHandled { return None; }
      var current := recordsByAgentCallId[id];
      var updated := Updated(current, snapshot);
      recordsByAgentCallId := recordsByAgentCallId[id := updated];
      if id in taskBackedCalls {
        var result := tasks.UpdateAcceptedTask(updated.source.sessionId, id, UpdateOf(updated), None, now, io);
        if result.Err? {
          if result.error.Persistence? {
            recordsByAgentCallId := recordsByAgentCallId[id := current];
            assert recordsByAgentCallId == old(recordsByAgentCallId);
          }
          return Some(result.error);
        }
      }
      if Terminal(snapshot.state) { terminalHandled := terminalHandled + {id}; }
      return None;
    }

    method AfterSnapshot(id: CallId, snapshot: Snapshot)
      requires id in recordsByAgentCallId
      modifies this`abortedOps
      ensures FlowState() == AfterApplied(old(FlowState()), old(CallState()), id, snapshot)
    {
      if Terminal(snapshot.state) || (Outcome(snapshot.state) && recordsByAgentCallId[id].blocking) { SignalWatcher(id); }
    }

    // ---------------------------------------------------------------- watcher turns

    method OnWatchError(op: OpId, text: string)
      requires op in watchers && watchers[op].callId in recordsByAgentCallId
      modifies this`watchers, this`activeWatchers
      ensures State() == WatchError(old(State()), op, text)
    {
      hide EndWatcher, SetWatchPhase;
      var w := watchers[op];
      var record := recordsByAgentCallId[w.callId];
      if Outcome(record.state) || closed || op in abortedOps || w.callId in terminalHandled {
        StopWatcher(op);
      } else {
        WatchIn(op, WatchRecording(Snapshot(w.initial.remoteId, w.initial.contextId, Failed, record.artifacts, None, Some(text)), Fallback));
      }
    }

    method OnWatchEvent(op: OpId, event: StreamEvent, text: string)
      requires op in watchers && watchers[op].callId in recordsByAgentCallId
      modifies this`watchers, this`activeWatchers
      ensures State() == WatchEvent(old(State()), op, event, text)
    {
      hide EndWatcher, SetWatchPhase, WatchError;
      var record := recordsByAgentCallId[watchers[op].callId];
      match event
      case StreamSnapshot(snapshot) =>
        if snapshot.remoteId != record.remoteId {
          OnWatchError(op, text);
        } else {
          WatchIn(op, WatchRecording(snapshot, Streamed));
        }
      case StreamEnd =>
        if record.state == InputRequired || record.state == AuthRequired || closed || op in abortedOps {
          StopWatcher(op);
        } else {
          OnWatchError(op, text);
        }
      case StreamError => OnWatchError(op, text);
    }

    /** One attempt to record the watcher's snapshot; a failed store write is tried again later. */
    method TryWatchSnapshot(op: OpId, text: string, now: int, io: Io)
      requires op in watchers && watchers[op].callId in recordsByAgentCallId && WatchSnapshot(watchers[op]).Some?
      modifies this, tasks, tasks.store, tasks.quota
      ensures State() == WatchAttempt(old(State()), op, text, now, io)
    {
      hide ApplyOnce, WatchApplied, WatchError, EndWatcher, SetWatchPhase, AsyncToolTaskService.State;
      var w := watchers[op];
      var snapshot := WatchSnapshot(w).value;
      ghost var was := State();
      ApplyKeepsIds(was.tasks, was.calls, w.callId, snapshot, now, io);
      var blocking := recordsByAgentCallId[w.callId].blocking;
      var wasHandled := w.callId in terminalHandled;
      var e := ApplySnapshotOnce(w.callId, snapshot, now, io);
      if e.None? {
        WatchedSnapshot(op, was, wasHandled, blocking, snapshot);
      } else if e.value.Persistence? {
        WatchIn(op, WatchRecording(snapshot, KindOf(w)));
      } else if KindOf(w) == Fallback {
        StopWatcher(op);
      } else {
        OnWatchError(op, text);
      }
    }

    method WatchedSnapshot(op: OpId, ghost was: Hub, wasHandled: bool, blocking: bool, snapshot: Snapshot)
      requires op in watchers && FlowState() == was.flow && watchers[op].callId in was.calls.records
      requires wasHandled == (watchers[op].callId in was.calls.handled) && blocking == was.calls.records[watchers[op].callId].blocking
      modifies this`watchers, this`activeWatchers, this`abortedOps
      ensures FlowState() == WatchApplied(was, op, snapshot)
    {
      var w := watchers[op];
      if !wasHandled && (Terminal(snapshot.state) || (Outcome(snapshot.state) && blocking)) { SignalWatcher(w.callId); }
      if KindOf(w) != Streamed || Outcome(snapshot.state) { StopWatcher(op); } else { WatchIn(op, Streaming); }
    }

    method OnWatchTurn(op: OpId)
      requires op in watchers
      modifies this`watchers
      ensures State() == WatchTurn(old(State()), op)
    {
      if !Outcome(watchers[op].initial.state) { WatchIn(op, Streaming); }
    }

    method Close()
      modifies this`closed
      ensures State() == old(State()).(closed := true)
    {
      closed := true;
    }

    // ---------------------------------------------------------------- cancellation

    method SignalContinuation(remoteId: RemoteId)
      modifies this`abortedOps
      ensures FlowState() == AbortContinuation(old(FlowState()), remoteId)
    {
      if remoteId in activeContinues { abortedOps := abortedOps + {activeContinues[remoteId]}; }
    }

    /** Joins a cancellation of the same remote task instead of starting a second one. */
    method CancelRemote(id: CallId)
      modifies this`cancels, this`activeCancels, this`nextOp, this`abortedOps
      ensures State() == CancelCall(old(State()), id)
    {
      hide StartCancel, AsyncToolTaskService.State;
      if id !in recordsByAgentCallId { return; }
      BeginCancel(id, recordsByAgentCallId[id].remoteId);
    }

    method BeginCancel(id: CallId, remoteId: RemoteId)
      modifies this`cancels, this`activeCancels, this`nextOp, this`abortedOps
      ensures FlowState() == StartCancel(old(FlowState()), id, remoteId)
    {
      if remoteId in activeCancels { return; }
      SignalContinuation(remoteId);
      cancels := cancels[nextOp := AgentCallService.Cancel(id, remoteId, CancelQueued)];
      activeCancels := activeCancels[remoteId := nextOp];
      nextOp := nextOp + 1;
    }

    method CancelIn(op: OpId, phase: CancelPhase)
      requires op in cancels
      modifies this`cancels
      ensures FlowState() == SetCancelPhase(old(FlowState()), op, phase)
    {
      cancels := cancels[op := cancels[op].(phase := phase)];
    }

    method ForgetCancel(op: OpId)
      requires op in cancels
      modifies this`cancels, this`activeCancels
      ensures FlowState() == EndCancel(old(FlowState()), op)
    {
      var remoteId := cancels[op].remoteId;
      cancels := cancels - {op};
      if remoteId in activeCancels && activeCancels[remoteId] == op { activeCancels := activeCancels - {remoteId}; }
    }

    /** A cancellation waits for the continuation that is active before it reaches the transport. */
    method OnCancelTurn(op: OpId)
      requires op in cancels
      modifies this`cancels, this`abortedOps
      ensures FlowState() == CancelTurn(old(FlowState()), op)
    {
      var c := cancels[op];
      match c.phase
      case CancelQueued =>
        if c.remoteId in activeContinues {
          SignalContinuation(c.remoteId);
          CancelIn(op, CancelWaiting(activeContinues[c.remoteId]));
        } else {
          CancelIn(op, CancelSent);
        }
      case CancelWaiting(d) => if d !in continues { CancelIn(op, CancelSent); }
      case _ =>
    }

    method OnCancelReply(op: OpId, reply: Option<Snapshot>)
      requires op in cancels && cancels[op].callId in recordsByAgentCallId
      modifies this`cancels, this`activeCancels
      ensures State() == CancelReply(old(State()), op, reply)
    {
      hide EndCancel, SetCancelPhase;
      if reply.None? || reply.value.remoteId != recordsByAgentCallId[cancels[op].callId].remoteId {
        ForgetCancel(op);
      } else {
        CancelIn(op, CancelRecording(reply.value));
      }
    }

    method TryCancelSnapshot(op: OpId, now: int, io: Io)
      requires op in cancels && cancels[op].phase.CancelRecording? && cancels[op].callId in recordsByAgentCallId
      modifies this, tasks, tasks.store, tasks.quota
      ensures State() == CancelAttempt(old(State()), op, now, io)
    {
      hide ApplyOnce, EndCancel, AfterApplied, AsyncToolTaskService.State;
      var c := cancels[op];
      ghost var was := State();
      ApplyKeepsIds(was.tasks, was.calls, c.callId, c.phase.snapshot, now, io);
      AfterKeepsCancels(was.flow, ApplyOnce(was.tasks, was.calls, c.callId, c.phase.snapshot, now, io).1, c.callId, c.phase.snapshot);
      var wasHandled := c.callId in terminalHandled;
      var e := ApplySnapshotOnce(c.callId, c.phase.snapshot, now, io);
      if e.Some? && e.value.Persistence? { return; }
      if e.None? && !wasHandled { AfterSnapshot(c.callId, c.phase.snapshot); }
      ForgetCancel(op);
    }

    // ---------------------------------------------------------------- continuation

    method ContinueTask(sessionId: string, id: CallId, answersFit: bool, readable: bool)
      modifies this`continues, this`activeContinues, this`nextOp
      ensures State() == ContinueCall(old(State()), sessionId, id, answersFit, readable)
    {
      hide Get, StartContinue;
      if closed { return; }
      var found := Get(tasks.State(), sessionId, id, readable);
      if found.Err? || found.value.None? { return; }
      var t := found.value.value;
      if t.kind != KIND || t.state != InputRequired || id !in recordsByAgentCallId
        || recordsByAgentCallId[id].state != InputRequired || !answersFit
      {
        return;
      }
      BeginContinue(recordsByAgentCallId[id].remoteId);
    }

    /** At most one continuation of a remote task, and none beside a cancellation. */
    method BeginContinue(remoteId: RemoteId)
      modifies this`continues, this`activeContinues, this`nextOp
      ensures FlowState() == StartContinue(old(FlowState()), remoteId)
    {
      if remoteId in activeCancels || remoteId in activeContinues { return; }
      continues := continues[nextOp := AgentCallService.Continue(remoteId, ContinueQueued)];
      activeContinues := activeContinues[remoteId := nextOp];
      nextOp := nextOp + 1;
    }

    method ContinueIn(op: OpId, phase: ContinuePhase)
      requires op in continues
      modifies this`continues
      ensures FlowState() == SetContinuePhase(old(FlowState()), op, phase)
    {
      continues := continues[op := continues[op].(phase := phase)];
    }

    method ForgetContinue(op: OpId)
      requires op in continues
      modifies this`continues, this`activeContinues
      ensures FlowState() == EndContinue(old(FlowState()), op)
    {
      var remoteId := continues[op].remoteId;
      continues := continues - {op};
      if remoteId in activeContinues && activeContinues[remoteId] == op { activeContinues := activeContinues - {remoteId}; }
    }

    method EnterTransport(op: OpId, id: CallId, callerAborted: bool)
      requires op in continues
      modifies this`continues, this`activeContinues
      ensures FlowState() == EnterContinuation(old(State()), op, id, callerAborted)
    {
      hide EndContinue, SetContinuePhase;
      if op in abortedOps || callerAborted || closed || id !in recordsByAgentCallId || recordsByAgentCallId[id].state != InputRequired {
        ForgetContinue(op);
      } else {
        ContinueIn(op, ContinueSent(id, recordsByAgentCallId[id]));
      }
    }

    /** The previous watcher is stopped and waited for before the answer goes out. */
    method OnContinueTurn(op: OpId, callerAborted: bool)
      requires op in continues
      modifies this`continues, this`activeContinues, this`abortedOps
      ensures State() == ContinueTurn(old(State()), op, callerAborted)
    {
      hide EndContinue, EnterContinuation, AsyncToolTaskService.State;
      var d := continues[op];
      match d.phase
      case ContinueQueued =>
        if d.remoteId !in agentCallIdByRemoteTaskId {
          ForgetContinue(op);
          return;
        }
        var id := agentCallIdByRemoteTaskId[d.remoteId];
        if id !in recordsByAgentCallId || recordsByAgentCallId[id].state != InputRequired {
          ForgetContinue(op);
        } else if id in activeWatchers {
          SignalWatcher(id);
          ContinueIn(op, ContinueWaiting(id, activeWatchers[id]));
        } else {
          EnterTransport(op, id, callerAborted);
        }
      case ContinueWaiting(id, w) => if w !in watchers { EnterTransport(op, id, callerAborted); }
      case _ =>
    }

    method OnContinueReply(op: OpId, reply: Option<Snapshot>)
      requires op in continues && continues[op].phase.ContinueSent?
      modifies this`continues, this`activeContinues
      ensures State() == ContinueReply(old(State()), op, reply)
    {
      hide EndContinue, SetContinuePhase;
      var phase := continues[op].phase;
      if reply.None? {
        ForgetContinue(op);
      } else if closed {
        ContinueIn(op, ContinueStopping);
      } else if op in abortedOps || reply.value.remoteId != phase.latest.remoteId || reply.value.state != Working {
        ForgetContinue(op);
      } else {
        ContinueIn(op, ContinueRecording(phase.callId, reply.value, phase.latest));
      }
    }

    method TryContinueSnapshot(op: OpId, now: int, io: Io)
      requires op in continues && continues[op].phase.ContinueRecording? && continues[op].phase.callId in recordsByAgentCallId
      modifies this, tasks, tasks.store, tasks.quota
      ensures State() == ContinueAttempt(old(State()), op, now, io)
    {
      hide ApplyOnce, EndContinue, SetContinuePhase;
      var phase := continues[op].phase;
      var e := ApplySnapshotOnce(phase.callId, phase.snapshot, now, io);
      if e.None? {
        ContinueIn(op, ContinueRecorded(phase.callId, phase.snapshot, phase.latest));
      } else if !e.value.Persistence? {
        ForgetContinue(op);
      }
    }

    /** Starts the next watcher, or puts the paused record back when the service closed meanwhile. */
    method FinishContinuation(op: OpId)
      requires op in continues && continues[op].phase.ContinueRecorded?
      modifies this
      ensures State() == ContinueFinish(old(State()), op)
    {
      hide EndContinue, SetContinuePhase;
      var phase := continues[op].phase;
      if closed {
        recordsByAgentCallId := recordsByAgentCallId[phase.callId := phase.latest];
        ContinueIn(op, ContinueStopping);
      } else if op in abortedOps {
        ForgetContinue(op);
      } else {
        BeginWatcher(phase.callId, phase.snapshot);
        ForgetContinue(op);
      }
    }
  }

  lemma ApplyKeepsIds(s: Service, c: Calls, id: CallId, snapshot: Snapshot, now: int, io: Io)
    requires id in c.records
    ensures ApplyOnce(s, c, id, snapshot, now, io).1.records.Keys == c.records.Keys
  { }

  lemma AfterKeepsCancels(f: Flow, c: Calls, id: CallId, snapshot: Snapshot)
    requires id in c.records
    ensures AfterApplied(f, c, id, snapshot).cancels == f.cancels
  { }

  lemma RefusedKeeps(q: Quota, sessionId: string, pool: Pool)
    ensures !(Acquire(q, sessionId, pool).1.Ok? && Acquire(q, sessionId, pool).1.value.Acquired?) ==> Acquire(q, sessionId, pool).0 == q
  { }
}
