/**
 The AgentCall service: remote submission, watchers, cancellation and continuation of Agent tasks
 beside the Async Tool Task service.

 Every function below is one block of the source between two awaits; what the transport, the
 store and the clock do arrives as a parameter. A running asynchronous operation is an entry of
 one of the maps in `Entry` and `Flow`, and its phase says what it is waiting for.
 */
module AgentCallService {
  import opened Common
  import opened SessionTaskQuota
  import opened AsyncTaskFacts
  import opened AsyncTaskService

  type CallId = TaskId
  type RemoteId = string
  type OpId = nat

  /** A remote Agent task is never `submitting`; that state is local. */
  type RemoteState = s: TaskState | s != Submitting witness Unknown

  datatype Snapshot = Snapshot(
    remoteId: RemoteId, contextId: Option<string>, state: RemoteState,
    artifacts: string, questions: Option<string>, message: Option<string>)

  datatype CallRequest = CallRequest(
    source: Source, toolName: string, skillId: string, contextId: Option<string>)

  datatype Record = Record(
    remoteId: RemoteId, contextId: Option<string>, source: Source, skillId: string, blocking: bool,
    state: RemoteState, artifacts: string, questions: Option<string>, message: Option<string>)

  /** Why a submission failed before a local record existed. */
  datatype Failure = Preaccept | DispatchUncertain | RemoteConflict | Shutdown | Bookkeeping

  datatype Phase = Discovering | AtTransport | Failing(why: Failure) | Waiting

  /** An asynchronous submission with the task it reserved. */
  datatype Submit = Submit(request: CallRequest, task: Task, phase: Phase)

  /** A blocking invocation with the quota handle it holds. */
  datatype Invoke = Invoke(request: CallRequest, lease: Lease, phase: Phase)

  datatype WatchPhase =
    | WatchQueued                                        // startWatcher has only queued its first turn
    | Streaming                                          // reading the remote subscription
    | WatchRecording(snapshot: Snapshot, kind: SnapshotKind)   // retrying a snapshot

  datatype SnapshotKind = Initial | Streamed | Fallback

  datatype Watcher = Watcher(callId: CallId, initial: Snapshot, phase: WatchPhase)

  datatype CancelPhase =
    | CancelQueued | CancelWaiting(continuation: OpId) | CancelSent | CancelRecording(snapshot: Snapshot)

  datatype Cancel = Cancel(callId: CallId, remoteId: RemoteId, phase: CancelPhase)

  datatype ContinuePhase =
    | ContinueQueued
    | ContinueWaiting(callId: CallId, watcher: OpId)
    | ContinueSent(callId: CallId, latest: Record)
    | ContinueRecording(callId: CallId, snapshot: Snapshot, latest: Record)
    | ContinueRecorded(callId: CallId, snapshot: Snapshot, latest: Record)
    | ContinueStopping

  datatype Continue = Continue(remoteId: RemoteId, phase: ContinuePhase)

  datatype DispatchMode = Async | Blocking

  datatype Dispatch = Dispatch(source: Source, mode: DispatchMode)

  datatype Entry = Entry(
    submits: map<CallId, Submit>, invokes: map<CallId, Invoke>, blockingBySource: map<Source, CallId>,
    dispatches: seq<Dispatch>)      // every call of the transport's submitTask, in order

  datatype Calls = Calls(
    records: map<CallId, Record>, callByRemote: map<RemoteId, CallId>,
    taskBacked: set<CallId>, handled: set<CallId>)

  datatype Flow = Flow(
    watchers: map<OpId, Watcher>, activeWatcher: map<CallId, OpId>,
    cancels: map<OpId, Cancel>, activeCancel: map<RemoteId, OpId>,
    continues: map<OpId, Continue>, activeContinue: map<RemoteId, OpId>,
    aborted: set<OpId>, next: OpId)

  datatype Hub = Hub(tasks: Service, entry: Entry, calls: Calls, flow: Flow, closed: bool)

  const KIND := "agent-call"

  predicate Outcome(state: TaskState) {
    Terminal(state) || state == InputRequired || state == AuthRequired
  }

  // ---------------------------------------------------------------- facts sent to the task service

  /** The task payload of a record, as canonical text. */
  function PayloadOf(artifacts: string, questions: Option<string>): Payload {
    "{\"artifacts\":" + artifacts + (if questions.None? then "" else ",\"questions\":" + questions.value) + "}"
  }

  function TaskRequest(r: CallRequest, artifacts: string, questions: Option<string>): Request {
    Request(r.source, r.toolName, KIND, Some(PayloadOf(artifacts, questions)))
  }

  function EmptyRequest(r: CallRequest): Request {
    TaskRequest(r, "[]", None)
  }

  function MetadataOf(id: CallId, skillId: string): Payload {
    "{\"messageId\":" + id + ",\"skillId\":" + skillId + "}"
  }

  function AcceptedReference(agentId: string, id: CallId, r: Record): Reference {
    Reference("agent-call/a2a", agentId, Some(r.remoteId), r.contextId, Some(MetadataOf(id, r.skillId)))
  }

  function UncertainReference(agentId: string, id: CallId, r: CallRequest): Reference {
    Reference("agent-call/a2a", agentId, None, r.contextId, Some(MetadataOf(id, r.skillId)))
  }

  function UpdateOf(r: Record): Update {
    Update(r.state, NewPayload(PayloadOf(r.artifacts, r.questions)), r.message)
  }

  function NewRecord(r: CallRequest, snapshot: Snapshot, blocking: bool): Record {
    Record(snapshot.remoteId, snapshot.contextId, r.source, r.skillId, blocking,
           snapshot.state, snapshot.artifacts, snapshot.questions, snapshot.message)
  }

  // ---------------------------------------------------------------- watchers

  function StartWatcher(f: Flow, id: CallId, initial: Snapshot): Flow {
    f.(watchers := f.watchers[f.next := Watcher(id, initial, WatchQueued)],
       activeWatcher := f.activeWatcher[id := f.next], next := f.next + 1)
  }

  function EndWatcher(f: Flow, op: OpId): Flow
    requires op in f.watchers
  {
    var id := f.watchers[op].callId;
    f.(watchers := f.watchers - {op},
       activeWatcher := if id in f.activeWatcher && f.activeWatcher[id] == op then f.activeWatcher - {id} else f.activeWatcher)
  }

  function AbortWatcher(f: Flow, id: CallId): Flow {
    if id in f.activeWatcher then f.(aborted := f.aborted + {f.activeWatcher[id]}) else f
  }

  function SetWatchPhase(f: Flow, op: OpId, phase: WatchPhase): Flow
    requires op in f.watchers
  {
    f.(watchers := f.watchers[op := f.watchers[op].(phase := phase)])
  }

  // ---------------------------------------------------------------- asynchronous submission

  function SubmitAsync(h: Hub, r: CallRequest, id: CallId, now: int, io: Io): Hub {
    if h.closed then h
    else
      match Reserve(h.tasks, EmptyRequest(r), id, now, io)
      case (s, Ok(Reserved(t))) =>
        h.(tasks := s, entry := h.entry.(submits := h.entry.submits[id := Submit(r, t, Discovering)]))
      case (s, _) => h.(tasks := s)
  }

  function SetSubmitPhase(h: Hub, id: CallId, phase: Phase): Hub
    requires id in h.entry.submits
  {
    h.(entry := h.entry.(submits := h.entry.submits[id := h.entry.submits[id].(phase := phase)]))
  }

  /** Capability discovery returned: the submission enters the transport or fails. */
  function SubmitCapability(h: Hub, id: CallId, found: bool): Hub
    requires id in h.entry.submits
  {
    if !found || h.closed then SetSubmitPhase(h, id, Failing(Preaccept))
    else
      var sent := h.entry.dispatches + [Dispatch(h.entry.submits[id].request.source, Async)];
      SetSubmitPhase(h.(entry := h.entry.(dispatches := sent)), id, AtTransport)
  }

  datatype Reply = NotDispatched | Uncertain | Accepted(snapshot: Snapshot)

  /** Makes the accepted state durable, or keeps it in the overlay when the store fails. */
  function AcceptOrRetain(s: Service, agentId: string, id: CallId, sub: Submit, record: Record, now: int, io: Io)
    : (Service, Option<TaskError>)
  {
    var reference := Some(AcceptedReference(agentId, id, record));
    match Accept(s, record.source.sessionId, id, UpdateOf(record), reference, now, io)
    case (s', Ok(_)) => (s', None)
    case (s', Err(e)) =>
      if !e.Persistence? then (s', Some(e))
      else
        match RetainUncertain(s', id, TaskRequest(sub.request, record.artifacts, record.questions), None, Some(sub.task),
                              None, reference, now, io)
        case (s'', Ok(_)) => (s'', None)
        case (s'', Err(e')) => (s'', Some(e'))
  }

  function RecordCall(c: Calls, id: CallId, record: Record): Calls {
    c.(records := c.records[id := record], callByRemote := c.callByRemote[record.remoteId := id])
  }

  function SubmitReply(h: Hub, agentId: string, id: CallId, reply: Reply, now: int, io: Io): Hub
    requires id in h.entry.submits
  {
    match reply
    case NotDispatched => SetSubmitPhase(h, id, Failing(Preaccept))
    case Uncertain => SetSubmitPhase(h, id, Failing(DispatchUncertain))
    case Accepted(snapshot) =>
      if h.closed then SetSubmitPhase(h, id, Failing(Shutdown))
      else if snapshot.remoteId in h.calls.callByRemote then SetSubmitPhase(h, id, Failing(RemoteConflict))
      else
        var sub := h.entry.submits[id];
        var record := NewRecord(sub.request, snapshot, false);
        var calls := RecordCall(h.calls, id, record);
        var (s, e) := AcceptOrRetain(h.tasks, agentId, id, sub, record, now, io);
        if e.Some? then SetSubmitPhase(h.(tasks := s, calls := calls), id, Failing(Bookkeeping))
        else
          h.(tasks := s,
             entry := h.entry.(submits := h.entry.submits - {id}),
             calls := calls.(taskBacked := calls.taskBacked + {id}),
             flow := StartWatcher(h.flow, id, snapshot))
  }

  /** The catch block of an asynchronous submission; `readable` is its first task lookup. */
  function SubmitFail(h: Hub, agentId: string, id: CallId, text: string, readable: bool, now: int, io: Io): Hub
    requires id in h.entry.submits && h.entry.submits[id].phase.Failing?
  {
    var sub := h.entry.submits[id];
    var session := sub.request.source.sessionId;
    var done := h.(entry := h.entry.(submits := h.entry.submits - {id}));
    match Get(h.tasks, session, id, readable)
    case Ok(Some(t)) =>
      if t.state != Submitting then done
      else if sub.phase.why == Preaccept || sub.phase.why == RemoteConflict then
        done.(tasks := RejectBeforeAcceptance(h.tasks, session, id, text, now, io).0)
      else
        var reference := if sub.phase.why == DispatchUncertain then Some(UncertainReference(agentId, id, sub.request)) else None;
        done.(tasks := Accept(h.tasks, session, id, Update(Unknown, NewPayload(PayloadOf("[]", None)), None), reference, now, io).0)
    case _ => done
  }

  // ---------------------------------------------------------------- blocking invocation

  function InvokeBlocking(h: Hub, r: CallRequest, id: CallId, readable: bool): Hub {
    if h.closed || GetBySource(h.tasks, r.source, readable) != Ok(None) || r.source in h.entry.blockingBySource then h
    else
      match Acquire(h.tasks.quota, r.source.sessionId, A2A)
      case (q, Ok(Acquired(lease))) =>
        h.(tasks := h.tasks.(quota := q),
           entry := h.entry.(invokes := h.entry.invokes[id := Invoke(r, lease, Discovering)],
                             blockingBySource := h.entry.blockingBySource[r.source := id]))
      case _ => h
  }

  function SetInvokePhase(h: Hub, id: CallId, phase: Phase): Hub
    requires id in h.entry.invokes
  {
    h.(entry := h.entry.(invokes := h.entry.invokes[id := h.entry.invokes[id].(phase := phase)]))
  }

  function EndInvoke(h: Hub, id: CallId): Hub
    requires id in h.entry.invokes
  {
    var source := h.entry.invokes[id].request.source;
    var bySource := h.entry.blockingBySource;
    h.(entry := h.entry.(invokes := h.entry.invokes - {id},
                         blockingBySource := if source in bySource && bySource[source] == id then bySource - {source} else bySource))
  }

  function InvokeCapability(h: Hub, id: CallId, found: bool): Hub
    requires id in h.entry.invokes
  {
    if !found || h.closed then SetInvokePhase(h, id, Failing(Preaccept))
    else
      var sent := h.entry.dispatches + [Dispatch(h.entry.invokes[id].request.source, Blocking)];
      SetInvokePhase(h.(entry := h.entry.(dispatches := sent)), id, AtTransport)
  }

  function InvokeReply(h: Hub, id: CallId, reply: Reply): Hub
    requires id in h.entry.invokes
  {
    match reply
    case NotDispatched => SetInvokePhase(h, id, Failing(Preaccept))
    case Uncertain => SetInvokePhase(h, id, Failing(DispatchUncertain))
    case Accepted(snapshot) =>
      if h.closed then SetInvokePhase(h, id, Failing(Shutdown))
      else if snapshot.remoteId in h.calls.callByRemote then SetInvokePhase(h, id, Failing(RemoteConflict))
      else
        var record := NewRecord(h.entry.invokes[id].request, snapshot, true);
        SetInvokePhase(h, id, Waiting).(calls := RecordCall(h.calls, id, record), flow := StartWatcher(h.flow, id, snapshot))
  }

  /** An uncertain dispatch is adopted as an unknown task together with the handle; any other failure gives the handle back. */
  function InvokeFail(h: Hub, agentId: string, id: CallId, now: int, io: Io): Hub
    requires id in h.entry.invokes && h.entry.invokes[id].phase.Failing?
  {
    var inv := h.entry.invokes[id];
    var s :=
      if inv.phase.why != DispatchUncertain then DropLease(h.tasks, inv.lease)
      else
        match Adopt(h.tasks, id, EmptyRequest(inv.request), None, inv.lease, Some(UncertainReference(agentId, id, inv.request)), now, io)
        case (s', Err(e)) => if e.Persistence? then s' else DropLease(s', inv.lease)
        case (s', Ok(_)) => s';
    EndInvoke(h, id).(tasks := s)
  }

  /** The wait for the outcome is over, in whatever way; the handle is given back. */
  function InvokeDone(h: Hub, id: CallId): Hub
    requires id in h.entry.invokes
  {
    EndInvoke(h, id).(tasks := DropLease(h.tasks, h.entry.invokes[id].lease))
  }

  // ---------------------------------------------------------------- applying a snapshot

  function Updated(current: Record, snapshot: Snapshot): Record {
    current.(
      contextId := if snapshot.contextId.None? then current.contextId else snapshot.contextId,
      state := snapshot.state,
      artifacts := snapshot.artifacts,
      questions := if snapshot.state == InputRequired then snapshot.questions else None,
      message := if snapshot.message.Some? then snapshot.message
                 else if current.state == InputRequired && snapshot.state == Working then None else current.message)
  }

  /**
   One attempt. The record is written first and rolled back when the store failed, but not
   when the task service refused the update for another reason.
   */
  function ApplyOnce(s: Service, c: Calls, id: CallId, snapshot: Snapshot, now: int, io: Io): (Service, Calls, Option<TaskError>)
    requires id in c.records
  {
    if id in c.handled then (s, c, None)
    else
      var updated := Updated(c.records[id], snapshot);
      var written := c.(records := c.records[id := updated]);
      var (s': Service, e: Option<TaskError>) :=
        if id !in c.taskBacked then (s, None)
        else match UpdateAccepted(s, updated.source.sessionId, id, UpdateOf(updated), None, now, io)
             case (s', Ok(_)) => (s', None)
             case (s', Err(e)) => (s', Some(e));
      if e.Some? && e.value.Persistence? then (s', c, e)
      else if e.Some? then (s', written, e)
      else if Terminal(snapshot.state) then (s', written.(handled := written.handled + {id}), None)
      else (s', written, None)
  }

  /** Applying an outcome stops the watcher of a blocking call, and a terminal one stops any watcher. */
  function AfterApplied(f: Flow, c: Calls, id: CallId, snapshot: Snapshot): Flow
    requires id in c.records
  {
    if Terminal(snapshot.state) || (Outcome(snapshot.state) && c.records[id].blocking) then AbortWatcher(f, id) else f
  }

  // ---------------------------------------------------------------- watcher turns

  /** The watcher's catch block. */
  function WatchError(h: Hub, op: OpId, text: string): Hub
    requires op in h.flow.watchers && h.flow.watchers[op].callId in h.calls.records
  {
    var w := h.flow.watchers[op];
    var record := h.calls.records[w.callId];
    if Outcome(record.state) || h.closed || op in h.flow.aborted || w.callId in h.calls.handled then
      h.(flow := EndWatcher(h.flow, op))
    else
      var failed := Snapshot(w.initial.remoteId, w.initial.contextId, Failed, record.artifacts, None, Some(text));
      h.(flow := SetWatchPhase(h.flow, op, WatchRecording(failed, Fallback)))
  }

  datatype StreamEvent = StreamSnapshot(snapshot: Snapshot) | StreamEnd | StreamError

  function WatchTurn(h: Hub, op: OpId): Hub
    requires op in h.flow.watchers
  {
    if Outcome(h.flow.watchers[op].initial.state) then h
    else h.(flow := SetWatchPhase(h.flow, op, Streaming))
  }

  function WatchEvent(h: Hub, op: OpId, event: StreamEvent, text: string): Hub
    requires op in h.flow.watchers && h.flow.watchers[op].callId in h.calls.records
  {
    var record := h.calls.records[h.flow.watchers[op].callId];
    match event
    case StreamSnapshot(snapshot) =>
      if snapshot.remoteId != record.remoteId then WatchError(h, op, text)
      else h.(flow := SetWatchPhase(h.flow, op, WatchRecording(snapshot, Streamed)))
    case StreamEnd =>
      if record.state == InputRequired || record.state == AuthRequired || h.closed || op in h.flow.aborted
      then h.(flow := EndWatcher(h.flow, op)) else WatchError(h, op, text)
    case StreamError => WatchError(h, op, text)
  }

  /** The snapshot a watcher is to apply now: its outcome-state initial one, or the one it retries. */
  function WatchSnapshot(w: Watcher): Option<Snapshot> {
    match w.phase
    case WatchQueued => if Outcome(w.initial.state) then Some(w.initial) else None
    case Streaming => None
    case WatchRecording(snapshot, _) => Some(snapshot)
  }

  function KindOf(w: Watcher): SnapshotKind {
    if w.phase.WatchRecording? then w.phase.kind else Initial
  }

  /** The watcher after its snapshot was applied: it stops at an outcome, else reads on. */
  function WatchApplied(h: Hub, op: OpId, snapshot: Snapshot): Flow
    requires op in h.flow.watchers && h.flow.watchers[op].callId in h.calls.records
  {
    var w := h.flow.watchers[op];
    var flow := if w.callId in h.calls.handled then h.flow else AfterApplied(h.flow, h.calls, w.callId, snapshot);
    if KindOf(w) != Streamed || Outcome(snapshot.state) then EndWatcher(flow, op) else SetWatchPhase(flow, op, Streaming)
  }

  function WatchAttempt(h: Hub, op: OpId, text: string, now: int, io: Io): Hub
    requires op in h.flow.watchers && h.flow.watchers[op].callId in h.calls.records
    requires WatchSnapshot(h.flow.watchers[op]).Some?
  {
    var w := h.flow.watchers[op];
    var snapshot := WatchSnapshot(w).value;
    var (s, calls, e) := ApplyOnce(h.tasks, h.calls, w.callId, snapshot, now, io);
    var h' := h.(tasks := s, calls := calls);
    if e.None? then h'.(flow := WatchApplied(h, op, snapshot))
    else if e.value.Persistence? then h'.(flow := SetWatchPhase(h.flow, op, WatchRecording(snapshot, KindOf(w))))
    else if KindOf(w) == Fallback then h'.(flow := EndWatcher(h.flow, op))
    else WatchError(h', op, text)
  }

  /** A retry ended by closing the service. */
  function WatchGiveUp(h: Hub, op: OpId, text: string): Hub
    requires op in h.flow.watchers && h.flow.watchers[op].callId in h.calls.records
  {
    if KindOf(h.flow.watchers[op]) == Fallback then h.(flow := EndWatcher(h.flow, op)) else WatchError(h, op, text)
  }

  // ---------------------------------------------------------------- cancellation

  function AbortContinuation(f: Flow, remoteId: RemoteId): Flow {
    if remoteId in f.activeContinue then f.(aborted := f.aborted + {f.activeContinue[remoteId]}) else f
  }

  function StartCancel(f: Flow, id: CallId, remoteId: RemoteId): Flow {
    if remoteId in f.activeCancel then f
    else
      var g := AbortContinuation(f, remoteId);
      g.(cancels := g.cancels[g.next := Cancel(id, remoteId, CancelQueued)],
         activeCancel := g.activeCancel[remoteId := g.next], next := g.next + 1)
  }

  function CancelCall(h: Hub, id: CallId): Hub {
    if id !in h.calls.records then h
    else h.(flow := StartCancel(h.flow, id, h.calls.records[id].remoteId))
  }

  function SetCancelPhase(f: Flow, op: OpId, phase: CancelPhase): Flow
    requires op in f.cancels
  {
    f.(cancels := f.cancels[op := f.cancels[op].(phase := phase)])
  }

  function EndCancel(f: Flow, op: OpId): Flow
    requires op in f.cancels
  {
    var remoteId := f.cancels[op].remoteId;
    f.(cancels := f.cancels - {op},
       activeCancel := if remoteId in f.activeCancel && f.activeCancel[remoteId] == op then f.activeCancel - {remoteId} else f.activeCancel)
  }

  /** performCancel up to the transport: first wait for an active continuation to settle. */
  function CancelTurn(f: Flow, op: OpId): Flow
    requires op in f.cancels
  {
    var c := f.cancels[op];
    match c.phase
    case CancelQueued =>
      if c.remoteId in f.activeContinue
      then SetCancelPhase(AbortContinuation(f, c.remoteId), op, CancelWaiting(f.activeContinue[c.remoteId]))
      else SetCancelPhase(f, op, CancelSent)
    case CancelWaiting(d) => if d in f.continues then f else SetCancelPhase(f, op, CancelSent)
    case _ => f
  }

  function CancelReply(h: Hub, op: OpId, reply: Option<Snapshot>): Hub
    requires op in h.flow.cancels && h.flow.cancels[op].callId in h.calls.records
  {
    if reply.None? || reply.value.remoteId != h.calls.records[h.flow.cancels[op].callId].remoteId
    then h.(flow := EndCancel(h.flow, op))
    else h.(flow := SetCancelPhase(h.flow, op, CancelRecording(reply.value)))
  }

  function CancelAttempt(h: Hub, op: OpId, now: int, io: Io): Hub
    requires op in h.flow.cancels && h.flow.cancels[op].phase.CancelRecording? && h.flow.cancels[op].callId in h.calls.records
  {
    var c := h.flow.cancels[op];
    var (s, calls, e) := ApplyOnce(h.tasks, h.calls, c.callId, c.phase.snapshot, now, io);
    var h' := h.(tasks := s, calls := calls);
    if e.Some? && e.value.Persistence? then h'
    else
      var flow := if e.Some? || c.callId in h.calls.handled then h.flow else AfterApplied(h.flow, calls, c.callId, c.phase.snapshot);
      h'.(flow := EndCancel(flow, op))
  }

  // ---------------------------------------------------------------- continuation

  /** `answersFit`: the answers cover every pending question of the record. */
  function ContinueCall(h: Hub, sessionId: string, id: CallId, answersFit: bool, readable: bool): Hub {
    if h.closed then h
    else match Get(h.tasks, sessionId, id, readable)
      case Ok(Some(t)) =>
        if t.kind != KIND || t.state != InputRequired || id !in h.calls.records
           || h.calls.records[id].state != InputRequired || !answersFit
        then h
        else h.(flow := StartContinue(h.flow, h.calls.records[id].remoteId))
      case _ => h
  }

  function StartContinue(f: Flow, remoteId: RemoteId): Flow {
    if remoteId in f.activeCancel || remoteId in f.activeContinue then f
    else
      f.(continues := f.continues[f.next := Continue(remoteId, ContinueQueued)],
         activeContinue := f.activeContinue[remoteId := f.next], next := f.next + 1)
  }

  function SetContinuePhase(f: Flow, op: OpId, phase: ContinuePhase): Flow
    requires op in f.continues
  {
    f.(continues := f.continues[op := f.continues[op].(phase := phase)])
  }

  function EndContinue(f: Flow, op: OpId): Flow
    requires op in f.continues
  {
    var remoteId := f.continues[op].remoteId;
    f.(continues := f.continues - {op},
       activeContinue := if remoteId in f.activeContinue && f.activeContinue[remoteId] == op
                         then f.activeContinue - {remoteId} else f.activeContinue)
  }

  /** The checks right before the transport call; `callerAborted` is the request's own signal. */
  function EnterContinuation(h: Hub, op: OpId, id: CallId, callerAborted: bool): Flow
    requires op in h.flow.continues
  {
    if op in h.flow.aborted || callerAborted || h.closed || id !in h.calls.records || h.calls.records[id].state != InputRequired
    then EndContinue(h.flow, op)
    else SetContinuePhase(h.flow, op, ContinueSent(id, h.calls.records[id]))
  }

  /** performContinueTask up to the transport: stop the previous watcher and wait for it. */
  function ContinueTurn(h: Hub, op: OpId, callerAborted: bool): Hub
    requires op in h.flow.continues
  {
    var d := h.flow.continues[op];
    match d.phase
    case ContinueQueued =>
      if d.remoteId !in h.calls.callByRemote then h.(flow := EndContinue(h.flow, op))
      else
        var id := h.calls.callByRemote[d.remoteId];
        if id !in h.calls.records || h.calls.records[id].state != InputRequired then h.(flow := EndContinue(h.flow, op))
        else if id in h.flow.activeWatcher then
          h.(flow := SetContinuePhase(AbortWatcher(h.flow, id), op, ContinueWaiting(id, h.flow.activeWatcher[id])))
        else h.(flow := EnterContinuation(h, op, id, callerAborted))
    case ContinueWaiting(id, w) =>
      if w in h.flow.watchers then h else h.(flow := EnterContinuation(h, op, id, callerAborted))
    case _ => h
  }

  function ContinueReply(h: Hub, op: OpId, reply: Option<Snapshot>): Hub
    requires op in h.flow.continues && h.flow.continues[op].phase.ContinueSent?
  {
    var phase := h.flow.continues[op].phase;
    h.(flow :=
         if reply.None? then EndContinue(h.flow, op)
         else if h.closed then SetContinuePhase(h.flow, op, ContinueStopping)
         else if op in h.flow.aborted || reply.value.remoteId != phase.latest.remoteId || reply.value.state != Working
         then EndContinue(h.flow, op)
         else SetContinuePhase(h.flow, op, ContinueRecording(phase.callId, reply.value, phase.latest)))
  }

  function ContinueAttempt(h: Hub, op: OpId, now: int, io: Io): Hub
    requires op in h.flow.continues && h.flow.continues[op].phase.ContinueRecording?
    requires h.flow.continues[op].phase.callId in h.calls.records
  {
    var phase := h.flow.continues[op].phase;
    var (s, calls, e) := ApplyOnce(h.tasks, h.calls, phase.callId, phase.snapshot, now, io);
    var h' := h.(tasks := s, calls := calls);
    if e.None? then h'.(flow := SetContinuePhase(h.flow, op, ContinueRecorded(phase.callId, phase.snapshot, phase.latest)))
    else if e.value.Persistence? then h'
    else h'.(flow := EndContinue(h.flow, op))
  }

  /** After the snapshot is applied; closing meanwhile restores the paused record. */
  function ContinueFinish(h: Hub, op: OpId): Hub
    requires op in h.flow.continues && h.flow.continues[op].phase.ContinueRecorded?
  {
    var phase := h.flow.continues[op].phase;
    if h.closed then
      h.(calls := h.calls.(records := h.calls.records[phase.callId := phase.latest]),
         flow := SetContinuePhase(h.flow, op, ContinueStopping))
    else if op in h.flow.aborted then h.(flow := EndContinue(h.flow, op))
    else h.(flow := EndContinue(StartWatcher(h.flow, phase.callId, phase.snapshot), op))
  }

  // ---------------------------------------------------------------- lifetime

  const NO_ENTRY := Entry(map[], map[], map[], [])
  const NO_CALLS := Calls(map[], map[], {}, {})
  const NO_FLOW := Flow(map[], map[], map[], map[], map[], map[], {}, 0)

  /** A service over a task service that was just started. */
  function Open(tasks: Service, dispatches: seq<Dispatch>): Hub {
    Hub(tasks, NO_ENTRY.(dispatches := dispatches), NO_CALLS, NO_FLOW, false)
  }
}
