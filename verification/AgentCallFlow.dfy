/**
 Cancellations and continuations of one remote task never reach the transport together: the
 invariant of the two maps of active operations, kept by every block of the AgentCall service.
 */
module AgentCallFlow {
  import opened Common
  import AsyncTaskFacts
  import opened AsyncTaskService
  import opened AgentCallService

  /** Every operation is the one its remote task is registered under, and ids are fresh. */
  ghost predicate Registered(f: Flow) {
    && (forall op | op in f.watchers :: op < f.next)
    && (forall op | op in f.cancels ::
          op < f.next && f.cancels[op].remoteId in f.activeCancel && f.activeCancel[f.cancels[op].remoteId] == op)
    && (forall op | op in f.continues ::
          op < f.next && f.continues[op].remoteId in f.activeContinue && f.activeContinue[f.continues[op].remoteId] == op)
    && (forall r | r in f.activeContinue ::
          f.activeContinue[r] in f.continues && f.continues[f.activeContinue[r]].remoteId == r)
  }

  /** A cancellation that has passed its wait runs alone; one that waits, waits for the right operation. */
  ghost predicate Excluded(f: Flow) {
    forall op | op in f.cancels ::
      var c := f.cancels[op];
      match c.phase
      case CancelQueued => true
      case CancelWaiting(d) => c.remoteId in f.activeContinue ==> f.activeContinue[c.remoteId] == d
      case _ => c.remoteId !in f.activeContinue
  }

  function CallOf(phase: ContinuePhase): Option<CallId> {
    match phase
    case ContinueWaiting(id, _) => Some(id)
    case ContinueSent(id, _) => Some(id)
    case ContinueRecording(id, _, _) => Some(id)
    case ContinueRecorded(id, _, _) => Some(id)
    case _ => None
  }

  /** Every operation works on a call that has a record. */
  ghost predicate Known(f: Flow, ids: set<CallId>) {
    && (forall op | op in f.watchers :: f.watchers[op].callId in ids)
    && (forall op | op in f.cancels :: f.cancels[op].callId in ids)
    && (forall op | op in f.continues :: CallOf(f.continues[op].phase).Some? ==> CallOf(f.continues[op].phase).value in ids)
  }

  ghost predicate FlowOk(f: Flow, ids: set<CallId>) {
    Registered(f) && Excluded(f) && Known(f, ids)
  }

  lemma FlowOkGrows(f: Flow, ids: set<CallId>, ids': set<CallId>)
    requires FlowOk(f, ids) && ids <= ids'
    ensures FlowOk(f, ids')
  {
  }

  predicate SameOperations(f: Flow, f': Flow, ids: set<CallId>) {
    && f'.cancels == f.cancels && f'.continues == f.continues
    && f'.activeCancel == f.activeCancel && f'.activeContinue == f.activeContinue
    && f.next <= f'.next
    && (forall op | op in f'.watchers :: op < f'.next || op in f.watchers)
    && (forall op | op in f'.watchers :: f'.watchers[op].callId in ids || (op in f.watchers && f'.watchers[op].callId == f.watchers[op].callId))
  }

  lemma SameOperationsOk(f: Flow, f': Flow, ids: set<CallId>)
    requires FlowOk(f, ids) && SameOperations(f, f', ids)
    ensures FlowOk(f', ids)
  {
  }

  // Watcher bookkeeping touches no operation.

  lemma StartWatcherSame(f: Flow, id: CallId, initial: Snapshot, ids: set<CallId>)
    requires id in ids
    ensures SameOperations(f, StartWatcher(f, id, initial), ids)
  {
  }

  lemma WatcherStepsSame(f: Flow, op: OpId, id: CallId, phase: WatchPhase, ids: set<CallId>)
    ensures op in f.watchers ==> SameOperations(f, SetWatchPhase(f, op, phase), ids) && SameOperations(f, EndWatcher(f, op), ids)
    ensures SameOperations(f, AbortWatcher(f, id), ids)
    ensures SameOperations(f, f, ids)
  {
  }

  lemma SameTwice(f: Flow, g: Flow, f': Flow, ids: set<CallId>)
    requires SameOperations(f, g, ids) && SameOperations(g, f', ids)
    ensures SameOperations(f, f', ids)
  {
  }

  lemma WatchErrorSame(h: Hub, op: OpId, text: string)
    requires op in h.flow.watchers && h.flow.watchers[op].callId in h.calls.records
    ensures SameOperations(h.flow, WatchError(h, op, text).flow, h.calls.records.Keys)
  {
    hide SameOperations, EndWatcher, SetWatchPhase;
    var w := h.flow.watchers[op];
    var failed := Snapshot(w.initial.remoteId, w.initial.contextId, AsyncTaskFacts.Failed, h.calls.records[w.callId].artifacts, None, Some(text));
    WatcherStepsSame(h.flow, op, w.callId, WatchRecording(failed, Fallback), h.calls.records.Keys);
  }

  lemma WatchEventSame(h: Hub, op: OpId, event: StreamEvent, text: string)
    requires op in h.flow.watchers && h.flow.watchers[op].callId in h.calls.records
    ensures SameOperations(h.flow, WatchEvent(h, op, event, text).flow, h.calls.records.Keys)
  {
    WatchErrorSame(h, op, text);
    hide WatchError;
  }

  lemma WatchAppliedSame(h: Hub, op: OpId, snapshot: Snapshot)
    requires op in h.flow.watchers && h.flow.watchers[op].callId in h.calls.records
    ensures SameOperations(h.flow, WatchApplied(h, op, snapshot), h.calls.records.Keys)
  {
    var w := h.flow.watchers[op];
    var f, g, ids := h.flow, AbortWatcher(h.flow, w.callId), h.calls.records.Keys;
    assert g.watchers == f.watchers;
    hide SameOperations, EndWatcher, SetWatchPhase, AbortWatcher, KindOf;
    WatcherStepsSame(f, op, w.callId, Streaming, ids);
    WatcherStepsSame(g, op, w.callId, Streaming, ids);
    SameTwice(f, g, EndWatcher(g, op), ids);
    SameTwice(f, g, SetWatchPhase(g, op, Streaming), ids);
  }

  lemma WatchAttemptSame(h: Hub, op: OpId, text: string, now: int, io: Io)
    requires op in h.flow.watchers && h.flow.watchers[op].callId in h.calls.records
    requires WatchSnapshot(h.flow.watchers[op]).Some?
    ensures SameOperations(h.flow, WatchAttempt(h, op, text, now, io).flow, h.calls.records.Keys)
  {
    hide SameOperations, EndWatcher, SetWatchPhase, WatchError, ApplyOnce, WatchSnapshot, WatchApplied, KindOf;
    var w := h.flow.watchers[op];
    var snapshot := WatchSnapshot(w).value;
    WatcherStepsSame(h.flow, op, w.callId, WatchRecording(snapshot, KindOf(w)), h.calls.records.Keys);
    WatchAppliedSame(h, op, snapshot);
    ApplyKeepsRecords(h, w.callId, snapshot, now, io);
    var (s, calls, e) := ApplyOnce(h.tasks, h.calls, w.callId, snapshot, now, io);
    WatchErrorSame(h.(tasks := s, calls := calls), op, text);
  }

  lemma ApplyKeepsRecords(h: Hub, id: CallId, snapshot: Snapshot, now: int, io: Io)
    requires id in h.calls.records
    ensures ApplyOnce(h.tasks, h.calls, id, snapshot, now, io).1.records.Keys == h.calls.records.Keys
  {
  }

  // ---------------------------------------------------------------- cancellations

  lemma StartCancelOk(f: Flow, id: CallId, remoteId: RemoteId, ids: set<CallId>)
    requires FlowOk(f, ids) && id in ids
    ensures FlowOk(StartCancel(f, id, remoteId), ids)
  {
    hide Registered, Excluded, Known, StartCancel;
    StartCancelRegistered(f, id, remoteId);
    StartCancelExcluded(f, id, remoteId);
    StartCancelKnown(f, id, remoteId, ids);
  }

  lemma StartCancelRegistered(f: Flow, id: CallId, remoteId: RemoteId)
    requires Registered(f)
    ensures Registered(StartCancel(f, id, remoteId))
  {
  }

  lemma StartCancelExcluded(f: Flow, id: CallId, remoteId: RemoteId)
    requires Excluded(f)
    ensures Excluded(StartCancel(f, id, remoteId))
  {
  }

  lemma StartCancelKnown(f: Flow, id: CallId, remoteId: RemoteId, ids: set<CallId>)
    requires Known(f, ids) && id in ids
    ensures Known(StartCancel(f, id, remoteId), ids)
  {
  }

  lemma SetCancelPhaseOk(f: Flow, op: OpId, phase: CancelPhase, ids: set<CallId>)
    requires FlowOk(f, ids) && op in f.cancels
    requires phase.CancelQueued? || f.cancels[op].remoteId !in f.activeContinue
             || (phase.CancelWaiting? && f.activeContinue[f.cancels[op].remoteId] == phase.continuation)
    ensures FlowOk(SetCancelPhase(f, op, phase), ids)
  {
  }

  lemma CancelTurnOk(f: Flow, op: OpId, ids: set<CallId>)
    requires FlowOk(f, ids) && op in f.cancels
    ensures FlowOk(CancelTurn(f, op), ids)
  {
    var c := f.cancels[op];
    var g := AbortContinuation(f, c.remoteId);
    assert SameOperations(f, g, ids);
    SameOperationsOk(f, g, ids);
    assert g.cancels == f.cancels && g.activeContinue == f.activeContinue;
    match c.phase
    case CancelQueued =>
      hide FlowOk, SetCancelPhase, AbortContinuation, SameOperations;
      if c.remoteId in f.activeContinue {
        SetCancelPhaseOk(g, op, CancelWaiting(f.activeContinue[c.remoteId]), ids);
      } else {
        SetCancelPhaseOk(f, op, CancelSent, ids);
      }
    case CancelWaiting(d) =>
      assert d !in f.continues ==> c.remoteId !in f.activeContinue;
      hide FlowOk, SetCancelPhase;
      if d !in f.continues { SetCancelPhaseOk(f, op, CancelSent, ids); }
    case _ =>
  }

  lemma CancelReplyOk(h: Hub, op: OpId, reply: Option<Snapshot>)
    requires FlowOk(h.flow, h.calls.records.Keys) && op in h.flow.cancels && h.flow.cancels[op].phase.CancelSent?
    requires h.flow.cancels[op].callId in h.calls.records
    ensures FlowOk(CancelReply(h, op, reply).flow, h.calls.records.Keys)
  {
    EndCancelOk(h.flow, op, h.calls.records.Keys);
    hide EndCancel;
  }

  lemma EndCancelOk(f: Flow, op: OpId, ids: set<CallId>)
    requires FlowOk(f, ids) && op in f.cancels
    ensures FlowOk(EndCancel(f, op), ids)
  {
    assert forall op' | op' in f.cancels && op' != op :: f.cancels[op'].remoteId != f.cancels[op].remoteId;
  }

  lemma CancelAttemptOk(h: Hub, op: OpId, now: int, io: Io)
    requires FlowOk(h.flow, h.calls.records.Keys) && op in h.flow.cancels && h.flow.cancels[op].phase.CancelRecording?
    requires h.flow.cancels[op].callId in h.calls.records
    ensures FlowOk(CancelAttempt(h, op, now, io).flow, h.calls.records.Keys)
  {
    var c := h.flow.cancels[op];
    EndCancelOk(h.flow, op, h.calls.records.Keys);
    ApplyKeepsRecords(h, c.callId, c.phase.snapshot, now, io);
    WatcherStepsSame(h.flow, op, c.callId, WatchQueued, h.calls.records.Keys);
    SameOperationsOk(h.flow, AbortWatcher(h.flow, c.callId), h.calls.records.Keys);
    EndCancelOk(AbortWatcher(h.flow, c.callId), op, h.calls.records.Keys);
    hide ApplyOnce, EndCancel, FlowOk;
  }

  // ---------------------------------------------------------------- continuations

  lemma StartContinueOk(f: Flow, remoteId: RemoteId, ids: set<CallId>)
    requires FlowOk(f, ids)
    ensures FlowOk(StartContinue(f, remoteId), ids)
  {
    hide Registered, Excluded, Known, StartContinue;
    StartContinueRegistered(f, remoteId);
    StartContinueExcluded(f, remoteId);
    StartContinueKnown(f, remoteId, ids);
  }

  lemma StartContinueRegistered(f: Flow, remoteId: RemoteId)
    requires Registered(f)
    ensures Registered(StartContinue(f, remoteId))
  {
  }

  lemma StartContinueExcluded(f: Flow, remoteId: RemoteId)
    requires Registered(f) && Excluded(f)
    ensures Excluded(StartContinue(f, remoteId))
  {
  }

  lemma StartContinueKnown(f: Flow, remoteId: RemoteId, ids: set<CallId>)
    requires Known(f, ids)
    ensures Known(StartContinue(f, remoteId), ids)
  {
  }

  lemma SetContinuePhaseOk(f: Flow, op: OpId, phase: ContinuePhase, ids: set<CallId>)
    requires FlowOk(f, ids) && op in f.continues && (CallOf(phase).Some? ==> CallOf(phase).value in ids)
    ensures FlowOk(SetContinuePhase(f, op, phase), ids)
  {
  }

  lemma EndContinueOk(f: Flow, op: OpId, ids: set<CallId>)
    requires FlowOk(f, ids) && op in f.continues
    ensures FlowOk(EndContinue(f, op), ids)
  {
    assert forall op' | op' in f.continues && op' != op :: f.continues[op'].remoteId != f.continues[op].remoteId;
  }

  lemma EnterContinuationOk(h: Hub, op: OpId, id: CallId, callerAborted: bool)
    requires FlowOk(h.flow, h.calls.records.Keys) && op in h.flow.continues
    ensures FlowOk(EnterContinuation(h, op, id, callerAborted), h.calls.records.Keys)
  {
    EndContinueOk(h.flow, op, h.calls.records.Keys);
    if id in h.calls.records {
      SetContinuePhaseOk(h.flow, op, ContinueSent(id, h.calls.records[id]), h.calls.records.Keys);
    }
    hide EndContinue, SetContinuePhase, FlowOk;
  }

  lemma ContinueTurnOk(h: Hub, op: OpId, callerAborted: bool)
    requires FlowOk(h.flow, h.calls.records.Keys) && op in h.flow.continues
    ensures FlowOk(ContinueTurn(h, op, callerAborted).flow, h.calls.records.Keys)
  {
    var d, ids := h.flow.continues[op], h.calls.records.Keys;
    EndContinueOk(h.flow, op, ids);
    if d.phase.ContinueQueued? && d.remoteId in h.calls.callByRemote {
      var id := h.calls.callByRemote[d.remoteId];
      var g := AbortWatcher(h.flow, id);
      assert op in g.continues;
      WatcherStepsSame(h.flow, op, id, WatchQueued, ids);
      SameOperationsOk(h.flow, g, ids);
      hide EndContinue, SetContinuePhase, FlowOk, AbortWatcher, SameOperations, EnterContinuation;
      EnterContinuationOk(h, op, id, callerAborted);
      if id in h.flow.activeWatcher && id in h.calls.records {
        SetContinuePhaseOk(g, op, ContinueWaiting(id, h.flow.activeWatcher[id]), ids);
      }
    } else {
      hide EndContinue, SetContinuePhase, FlowOk, AbortWatcher, EnterContinuation;
      if d.phase.ContinueWaiting? { EnterContinuationOk(h, op, d.phase.callId, callerAborted); }
    }
  }

  lemma ContinueReplyOk(h: Hub, op: OpId, reply: Option<Snapshot>)
    requires FlowOk(h.flow, h.calls.records.Keys) && op in h.flow.continues && h.flow.continues[op].phase.ContinueSent?
    ensures FlowOk(ContinueReply(h, op, reply).flow, h.calls.records.Keys)
  {
    EndContinueOk(h.flow, op, h.calls.records.Keys);
    var phase, ids := h.flow.continues[op].phase, h.calls.records.Keys;
    SetContinuePhaseOk(h.flow, op, ContinueStopping, ids);
    assert phase.callId in ids by { assert CallOf(phase) == Some(phase.callId); }
    if reply.Some? { SetContinuePhaseOk(h.flow, op, ContinueRecording(phase.callId, reply.value, phase.latest), ids); }
    hide EndContinue, SetContinuePhase, FlowOk;
  }

  lemma ContinueAttemptOk(h: Hub, op: OpId, now: int, io: Io)
    requires FlowOk(h.flow, h.calls.records.Keys) && op in h.flow.continues && h.flow.continues[op].phase.ContinueRecording?
    requires h.flow.continues[op].phase.callId in h.calls.records
    ensures FlowOk(ContinueAttempt(h, op, now, io).flow, h.calls.records.Keys)
  {
    EndContinueOk(h.flow, op, h.calls.records.Keys);
    var phase := h.flow.continues[op].phase;
    SetContinuePhaseOk(h.flow, op, ContinueRecorded(phase.callId, phase.snapshot, phase.latest), h.calls.records.Keys);
    hide EndContinue, SetContinuePhase, FlowOk, ApplyOnce;
  }

  lemma ContinueFinishOk(h: Hub, op: OpId)
    requires FlowOk(h.flow, h.calls.records.Keys) && op in h.flow.continues && h.flow.continues[op].phase.ContinueRecorded?
    ensures FlowOk(ContinueFinish(h, op).flow, h.calls.records.Keys)
  {
    var phase := h.flow.continues[op].phase;
    EndContinueOk(h.flow, op, h.calls.records.Keys);
    var ids := h.calls.records.Keys;
    SetContinuePhaseOk(h.flow, op, ContinueStopping, ids);
    StartWatcherSame(h.flow, phase.callId, phase.snapshot, ids);
    SameOperationsOk(h.flow, StartWatcher(h.flow, phase.callId, phase.snapshot), ids);
    EndContinueOk(StartWatcher(h.flow, phase.callId, phase.snapshot), op, ids);
    hide EndContinue, SetContinuePhase, FlowOk;
  }
}
