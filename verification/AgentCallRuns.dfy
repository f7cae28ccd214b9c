/**
 Whole runs of the AgentCall service: every interleaving of submissions, blocking calls, watchers,
 cancellations and continuations, with store and transport faults, closing, crashes and restarts.
 */
module AgentCallRuns {
  import opened Common
  import opened SessionTaskQuota
  import opened AsyncTaskFacts
  import opened AsyncTaskService
  import opened AsyncTaskInvariant
  import opened AgentCallService
  import opened AgentCallFlow
  import opened AgentCallTasks
  import opened AgentCallInvariant
  import opened AgentCallAgreement
  import Memory = InMemoryTaskStore

  /** The service and every call id ever drawn; ids are globally fresh. */
  datatype System = System(hub: Hub, used: set<CallId>, agentId: string)

  datatype EntryStep =
    | SubmitStep(request: CallRequest, now: int, io: Io)
    | InvokeStep(request: CallRequest, readable: bool)
    | CapabilityStep(found: bool)
    | ReplyStep(reply: Reply, now: int, io: Io)
    | FailStep(text: string, readable: bool, now: int, io: Io)
    | DoneStep

  datatype CancelStep =
    | CancelTurnStep | CancelReplyStep(answer: Option<Snapshot>) | CancelAttemptStep(now: int, io: Io) | CancelGiveUpStep

  datatype ContinueStep =
    | ContinueTurnStep(callerAborted: bool) | ContinueReplyStep(answer: Option<Snapshot>)
    | ContinueAttemptStep(now: int, io: Io) | ContinueGiveUpStep | ContinueFinishStep | ContinueStopStep

  datatype WatchStep =
    | WatchTurnStep | WatchEventStep(event: StreamEvent, text: string)
    | WatchAttemptStep(text: string, now: int, io: Io) | WatchGiveUpStep(text: string)

  datatype Step =
    | OnEntry(id: CallId, entry: EntryStep)
    | CancelCallStep(id: CallId)
    | OnCancel(op: OpId, cancel: CancelStep)
    | ContinueCallStep(id: CallId, sessionId: string, answersFit: bool, readable: bool)
    | OnContinue(op: OpId, continuation: ContinueStep)
    | OnWatch(op: OpId, watch: WatchStep)
    | AbortStep(op: OpId)
    | CloseStep
    | RestartStep(limits: Limits, order: seq<TaskId>, now: int, io: Io)

  // ---------------------------------------------------------------- what may happen

  function PhaseOf(e: Entry, id: CallId): Option<Phase> {
    if id in e.submits then Some(e.submits[id].phase) else if id in e.invokes then Some(e.invokes[id].phase) else None
  }

  ghost predicate EntryEnabled(w: System, id: CallId, step: EntryStep) {
    match step
    case SubmitStep(_, _, _) => id !in w.used
    case InvokeStep(_, _) => id !in w.used
    case CapabilityStep(_) => PhaseOf(w.hub.entry, id) == Some(Discovering)
    case ReplyStep(_, _, _) => PhaseOf(w.hub.entry, id) == Some(AtTransport)
    case FailStep(_, _, _, _) => PhaseOf(w.hub.entry, id).Some? && PhaseOf(w.hub.entry, id).value.Failing?
    case DoneStep => id in w.hub.entry.invokes && w.hub.entry.invokes[id].phase.Waiting?
  }

  ghost predicate CancelEnabled(h: Hub, op: OpId, step: CancelStep) {
    && op in h.flow.cancels && h.flow.cancels[op].callId in h.calls.records
    && match step
       case CancelTurnStep => true
       case CancelReplyStep(_) => h.flow.cancels[op].phase.CancelSent?
       case CancelAttemptStep(_, _) => h.flow.cancels[op].phase.CancelRecording?
       case CancelGiveUpStep => h.flow.cancels[op].phase.CancelRecording? && h.closed
  }

  ghost predicate ContinueEnabled(h: Hub, op: OpId, step: ContinueStep) {
    && op in h.flow.continues
    && (CallOf(h.flow.continues[op].phase).Some? ==> CallOf(h.flow.continues[op].phase).value in h.calls.records)
    && var phase := h.flow.continues[op].phase;
       match step
       case ContinueTurnStep(_) => true
       case ContinueReplyStep(_) => phase.ContinueSent?
       case ContinueAttemptStep(_, _) => phase.ContinueRecording?
       case ContinueGiveUpStep => phase.ContinueRecording? && (h.closed || op in h.flow.aborted)
       case ContinueFinishStep => phase.ContinueRecorded?
       case ContinueStopStep => phase.ContinueStopping?
  }

  ghost predicate WatchEnabled(h: Hub, op: OpId, step: WatchStep) {
    && op in h.flow.watchers && h.flow.watchers[op].callId in h.calls.records
    && var watcher := h.flow.watchers[op];
       match step
       case WatchTurnStep => watcher.phase.WatchQueued?
       case WatchEventStep(_, _) => watcher.phase.Streaming?
       case WatchAttemptStep(_, _, _) => WatchSnapshot(watcher).Some?
       case WatchGiveUpStep(_) => watcher.phase.WatchRecording? && h.closed
  }

  ghost predicate Enabled(w: System, step: Step) {
    match step
    case OnEntry(id, entry) => EntryEnabled(w, id, entry)
    case OnCancel(op, cancel) => CancelEnabled(w.hub, op, cancel)
    case OnContinue(op, continuation) => ContinueEnabled(w.hub, op, continuation)
    case OnWatch(op, watch) => WatchEnabled(w.hub, op, watch)
    case RestartStep(_, order, _, _) => ListsOnce(order, NonTerminalIds(w.hub.tasks.store.tasks))
    case _ => true
  }

  // ---------------------------------------------------------------- what happens

  ghost function EntryHub(w: System, id: CallId, step: EntryStep): Hub
    requires EntryEnabled(w, id, step)
  {
    var h := w.hub;
    match step
    case SubmitStep(r, now, io) => SubmitAsync(h, r, id, now, io)
    case InvokeStep(r, readable) => InvokeBlocking(h, r, id, readable)
    case CapabilityStep(found) =>
      if id in h.entry.submits then SubmitCapability(h, id, found) else InvokeCapability(h, id, found)
    case ReplyStep(reply, now, io) =>
      if id in h.entry.submits then SubmitReply(h, w.agentId, id, reply, now, io)
      else InvokeReply(h, id, reply)
    case FailStep(text, readable, now, io) =>
      if id in h.entry.submits then SubmitFail(h, w.agentId, id, text, readable, now, io)
      else InvokeFail(h, w.agentId, id, now, io)
    case DoneStep => InvokeDone(h, id)
  }

  ghost function CancelHub(h: Hub, op: OpId, step: CancelStep): Hub
    requires CancelEnabled(h, op, step)
  {
    match step
    case CancelTurnStep => h.(flow := CancelTurn(h.flow, op))
    case CancelReplyStep(answer) => CancelReply(h, op, answer)
    case CancelAttemptStep(now, io) => CancelAttempt(h, op, now, io)
    case CancelGiveUpStep => h.(flow := EndCancel(h.flow, op))
  }

  ghost function ContinueHub(h: Hub, op: OpId, step: ContinueStep): Hub
    requires ContinueEnabled(h, op, step)
  {
    match step
    case ContinueTurnStep(callerAborted) => ContinueTurn(h, op, callerAborted)
    case ContinueReplyStep(answer) => ContinueReply(h, op, answer)
    case ContinueAttemptStep(now, io) =>
      assert CallOf(h.flow.continues[op].phase) == Some(h.flow.continues[op].phase.callId);
      ContinueAttempt(h, op, now, io)
    case ContinueGiveUpStep => h.(flow := EndContinue(h.flow, op))
    case ContinueFinishStep => ContinueFinish(h, op)
    case ContinueStopStep => h.(flow := EndContinue(h.flow, op))
  }

  ghost function WatchHub(h: Hub, op: OpId, step: WatchStep): Hub
    requires WatchEnabled(h, op, step)
  {
    match step
    case WatchTurnStep => WatchTurn(h, op)
    case WatchEventStep(event, text) => WatchEvent(h, op, event, text)
    case WatchAttemptStep(text, now, io) => WatchAttempt(h, op, text, now, io)
    case WatchGiveUpStep(text) => WatchGiveUp(h, op, text)
  }

  /** A crash loses everything but the store; only a successful restart is a new state. */
  function RestartHub(h: Hub, limits: Limits, order: seq<TaskId>, now: int, io: Io): Hub {
    match Restart(h.tasks.kinds, h.tasks.store, limits, order, now, io)
    case Ok(s) => Open(s, h.entry.dispatches)
    case Err(_) => h
  }

  ghost function Perform(w: System, step: Step): System
    requires Enabled(w, step)
  {
    match step
    case OnEntry(id, entry) => w.(hub := EntryHub(w, id, entry), used := w.used + {id})
    case CancelCallStep(id) => w.(hub := CancelCall(w.hub, id))
    case OnCancel(op, cancel) => w.(hub := CancelHub(w.hub, op, cancel))
    case ContinueCallStep(id, session, fit, readable) => w.(hub := ContinueCall(w.hub, session, id, fit, readable))
    case OnContinue(op, continuation) => w.(hub := ContinueHub(w.hub, op, continuation))
    case OnWatch(op, watch) => w.(hub := WatchHub(w.hub, op, watch))
    case AbortStep(op) => w.(hub := w.hub.(flow := w.hub.flow.(aborted := w.hub.flow.aborted + {op})))
    case CloseStep => w.(hub := w.hub.(closed := true))
    case RestartStep(limits, order, now, io) => w.(hub := RestartHub(w.hub, limits, order, now, io))
  }

  ghost function Apply(w: System, step: Step): System {
    if Enabled(w, step) then Perform(w, step) else w
  }

  ghost function Run(w: System, steps: seq<Step>): System {
    if steps == [] then w else Apply(Run(w, steps[..|steps| - 1]), steps[|steps| - 1])
  }

  /** A first start over an empty store; the AgentCall kind is registered with its pool. */
  function Begin(kinds: map<string, Pool>, limits: Limits, agentId: string): System {
    System(Open(Fresh(kinds, Memory.EMPTY, limits), []), {}, agentId)
  }

  ghost predicate Registers(kinds: map<string, Pool>) {
    KindsOk(kinds) && KIND in kinds && kinds[KIND] == A2A
  }

  // ---------------------------------------------------------------- the invariant over runs

  ghost predicate Sound(w: System) {
    Core(w.hub, w.used)
  }

  lemma EntrySound(w: System, id: CallId, step: EntryStep)
    requires Sound(w) && EntryEnabled(w, id, step)
    ensures Core(EntryHub(w, id, step), w.used + {id})
  {
    hide Core, SubmitAsync, InvokeBlocking, SubmitCapability, InvokeCapability, SubmitReply, InvokeReply, SubmitFail, InvokeFail, InvokeDone;
    var h := w.hub;
    match step
    case SubmitStep(r, now, io) => SubmitAsyncCore(h, w.used, r, id, now, io);
    case InvokeStep(r, readable) => InvokeBlockingCore(h, w.used, r, id, readable);
    case CapabilityStep(found) =>
      if id in h.entry.submits { SubmitCapabilityCore(h, w.used, id, found); } else { InvokeCapabilityCore(h, w.used, id, found); }
      CoreGrows(EntryHub(w, id, step), w.used, w.used + {id});
    case ReplyStep(reply, now, io) =>
      if id in h.entry.submits { SubmitReplyCore(h, w.used, w.agentId, id, reply, now, io); }
      else { InvokeReplyCore(h, w.used, id, reply); }
      CoreGrows(EntryHub(w, id, step), w.used, w.used + {id});
    case FailStep(text, readable, now, io) =>
      if id in h.entry.submits { SubmitFailCore(h, w.used, w.agentId, id, text, readable, now, io); }
      else { InvokeFailCore(h, w.used, w.agentId, id, now, io); }
      CoreGrows(EntryHub(w, id, step), w.used, w.used + {id});
    case DoneStep =>
      InvokeDoneCore(h, w.used, id);
      CoreGrows(EntryHub(w, id, step), w.used, w.used + {id});
  }

  lemma FlowOf(h: Hub, used: set<CallId>)
    requires Core(h, used)
    ensures FlowOk(h.flow, h.calls.records.Keys)
  {
  }

  lemma CancelSound(h: Hub, used: set<CallId>, op: OpId, step: CancelStep)
    requires Core(h, used) && CancelEnabled(h, op, step)
    ensures Core(CancelHub(h, op, step), used)
  {
    hide Core, FlowOk, CancelTurn, CancelAttempt, EndCancel, SetCancelPhase;
    FlowOf(h, used);
    match step
    case CancelTurnStep => CancelTurnOk(h.flow, op, h.calls.records.Keys); FlowMoves(h, CancelTurn(h.flow, op), used);
    case CancelReplyStep(answer) => CancelReplyOk(h, op, answer); FlowMoves(h, CancelReply(h, op, answer).flow, used);
    case CancelAttemptStep(now, io) => CancelAttemptCore(h, used, op, now, io);
    case CancelGiveUpStep => EndCancelOk(h.flow, op, h.calls.records.Keys); FlowMoves(h, EndCancel(h.flow, op), used);
  }

  lemma ContinueSound(h: Hub, used: set<CallId>, op: OpId, step: ContinueStep)
    requires Core(h, used) && ContinueEnabled(h, op, step)
    ensures Core(ContinueHub(h, op, step), used)
  {
    hide Core, FlowOk, ContinueAttempt, ContinueFinish, EndContinue, SetContinuePhase, EnterContinuation, AbortWatcher;
    FlowOf(h, used);
    match step
    case ContinueTurnStep(callerAborted) =>
      ContinueTurnOk(h, op, callerAborted);
      FlowMoves(h, ContinueTurn(h, op, callerAborted).flow, used);
    case ContinueReplyStep(answer) => ContinueReplyOk(h, op, answer); FlowMoves(h, ContinueReply(h, op, answer).flow, used);
    case ContinueAttemptStep(now, io) => ContinueAttemptCore(h, used, op, now, io);
    case ContinueGiveUpStep => EndContinueOk(h.flow, op, h.calls.records.Keys); FlowMoves(h, EndContinue(h.flow, op), used);
    case ContinueFinishStep =>
      assert CallOf(h.flow.continues[op].phase) == Some(h.flow.continues[op].phase.callId);
      ContinueFinishCore(h, used, op);
    case ContinueStopStep => EndContinueOk(h.flow, op, h.calls.records.Keys); FlowMoves(h, EndContinue(h.flow, op), used);
  }

  lemma WatchSound(h: Hub, used: set<CallId>, op: OpId, step: WatchStep)
    requires Core(h, used) && WatchEnabled(h, op, step)
    ensures Core(WatchHub(h, op, step), used)
  {
    hide Core, FlowOk, WatchAttempt, SetWatchPhase, EndWatcher, SameOperations, WatchError;
    FlowOf(h, used);
    var ids := h.calls.records.Keys;
    WatcherStepsSame(h.flow, op, h.flow.watchers[op].callId, Streaming, ids);
    match step
    case WatchTurnStep =>
      SameOperationsOk(h.flow, WatchTurn(h, op).flow, ids);
      FlowMoves(h, WatchTurn(h, op).flow, used);
    case WatchEventStep(event, text) =>
      WatchEventSame(h, op, event, text);
      SameOperationsOk(h.flow, WatchEvent(h, op, event, text).flow, ids);
      WatchEventFlow(h, op, event, text);
      hide WatchEvent;
      FlowMoves(h, WatchEvent(h, op, event, text).flow, used);
    case WatchAttemptStep(text, now, io) => WatchAttemptCore(h, used, op, text, now, io);
    case WatchGiveUpStep(text) =>
      WatchErrorSame(h, op, text);
      WatchErrorFlow(h, op, text);
      SameOperationsOk(h.flow, WatchGiveUp(h, op, text).flow, ids);
      FlowMoves(h, WatchGiveUp(h, op, text).flow, used);
  }

  lemma WatchErrorFlow(h: Hub, op: OpId, text: string)
    requires op in h.flow.watchers && h.flow.watchers[op].callId in h.calls.records
    ensures WatchError(h, op, text) == h.(flow := WatchError(h, op, text).flow)
  {
    hide SetWatchPhase, EndWatcher;
  }

  lemma WatchEventFlow(h: Hub, op: OpId, event: StreamEvent, text: string)
    requires op in h.flow.watchers && h.flow.watchers[op].callId in h.calls.records
    ensures WatchEvent(h, op, event, text) == h.(flow := WatchEvent(h, op, event, text).flow)
  {
    hide SetWatchPhase, EndWatcher, WatchError;
    WatchErrorFlow(h, op, text);
  }

  lemma RestartSound(h: Hub, used: set<CallId>, limits: Limits, order: seq<TaskId>, now: int, io: Io)
    requires Core(h, used) && ListsOnce(order, NonTerminalIds(h.tasks.store.tasks))
    ensures Core(RestartHub(h, limits, order, now, io), used)
  {
    hide Restart, ListsOnce, NonTerminalIds, Memory.Indexed, OverlayOk, LeaseOk, NotifyOk, Consistent, LiveLeases, Memory.RecoverNonTerminal, Memory.RecoverTask;
    assert KindsOk(h.tasks.kinds) && Memory.Indexed(h.tasks.store) && h.tasks.store.tasks.Keys <= used;
    RestartGood(h.tasks.kinds, h.tasks.store, limits, order, now, io);
    if Restart(h.tasks.kinds, h.tasks.store, limits, order, now, io).Ok? {
      var s := Restart(h.tasks.kinds, h.tasks.store, limits, order, now, io).value;
      RecoveredKeys(h.tasks.store, now);
      hide KindsOk, Effective, Good;
      OpenCore(h, s, used);
    }
  }

  lemma RecoveredKeys(store: Memory.Store, now: int)
    ensures Memory.RecoverNonTerminal(store, Instant(now), "reconciliation-required").0.tasks.Keys == store.tasks.Keys
  {
  }

  lemma OpenCore(h: Hub, s: Service, used: set<CallId>)
    requires DispatchOk(h.tasks, h.entry) && s.store.bySource == h.tasks.store.bySource
    requires Good(s, {}) && KIND in s.kinds && s.kinds[KIND] == A2A && Effective(s).Keys <= used
    ensures Core(Open(s, h.entry.dispatches), used)
  {
    hide Good, Effective;
    assert HeldBy(map[]) == {};
    DispatchKept(h.tasks, s, h.entry, NO_ENTRY.(dispatches := h.entry.dispatches));
    hide DispatchOk;
  }

  lemma PerformSound(w: System, step: Step)
    requires Sound(w) && Enabled(w, step)
    ensures Sound(Perform(w, step))
  {
    hide Core, FlowOk, EntryHub, CancelHub, ContinueHub, WatchHub, EntryEnabled, CancelEnabled, ContinueEnabled, WatchEnabled, RestartHub, ListsOnce,
         NonTerminalIds, StartCancel, StartContinue, Get, SameOperations;
    var h, ids := w.hub, w.hub.calls.records.Keys;
    FlowOf(h, w.used);
    match step
    case OnEntry(id, entry) => EntrySound(w, id, entry);
    case CancelCallStep(id) =>
      if id in h.calls.records { StartCancelOk(h.flow, id, h.calls.records[id].remoteId, ids); }
      FlowMoves(h, CancelCall(h, id).flow, w.used);
    case OnCancel(op, cancel) => CancelSound(h, w.used, op, cancel);
    case ContinueCallStep(id, session, fit, readable) =>
      if id in h.calls.records { StartContinueOk(h.flow, h.calls.records[id].remoteId, ids); }
      FlowMoves(h, ContinueCall(h, session, id, fit, readable).flow, w.used);
    case OnContinue(op, continuation) => ContinueSound(h, w.used, op, continuation);
    case OnWatch(op, watch) => WatchSound(h, w.used, op, watch);
    case AbortStep(op) => AbortSound(h, w.used, op);
    case CloseStep => CloseSound(h, w.used);
    case RestartStep(limits, order, now, io) => RestartSound(h, w.used, limits, order, now, io);
  }

  lemma AbortSound(h: Hub, used: set<CallId>, op: OpId)
    requires Core(h, used)
    ensures Core(h.(flow := h.flow.(aborted := h.flow.aborted + {op})), used)
  {
    FlowOf(h, used);
    SameOperationsOk(h.flow, h.flow.(aborted := h.flow.aborted + {op}), h.calls.records.Keys);
    hide Core, FlowOk, SameOperations;
    FlowMoves(h, h.flow.(aborted := h.flow.aborted + {op}), used);
  }

  lemma CloseSound(h: Hub, used: set<CallId>)
    requires Core(h, used)
    ensures Core(h.(closed := true), used)
  {
    hide LeasesOk, EntryOk, DispatchOk, FlowOk, IdsUsed;
  }

  lemma {:induction false} RunSound(kinds: map<string, Pool>, limits: Limits, agentId: string, steps: seq<Step>)
    requires Registers(kinds)
    ensures Sound(Run(Begin(kinds, limits, agentId), steps))
  {
    hide Sound, Enabled, Perform;
    if steps == [] {
      BeginSound(kinds, limits, agentId);
    } else {
      var n := |steps| - 1;
      RunSound(kinds, limits, agentId, steps[..n]);
      var w := Run(Begin(kinds, limits, agentId), steps[..n]);
      if Enabled(w, steps[n]) { PerformSound(w, steps[n]); }
    }
  }

  lemma BeginSound(kinds: map<string, Pool>, limits: Limits, agentId: string)
    requires Registers(kinds)
    ensures Sound(Begin(kinds, limits, agentId))
  {
    EmptyQuota(limits, map[]);
    hide Consistent, LiveLeases, KindsOk;
    var s := Fresh(kinds, Memory.EMPTY, limits);
    assert NonTerminalIds(map[]) == {};
    assert Effective(s) == map[];
    assert Good(s, {});
    assert DispatchOk(s, NO_ENTRY);
    hide Good, Effective;
    OpenCore(Open(s, []), s, {});
  }

  // ---------------------------------------------------------------- at most one dispatch

  /**
   In every run, with crashes and restarts anywhere, a source is dispatched by asynchronous
   submission at most once, and its reservation is durable whenever it has been.
   */
  lemma DispatchedAtMostOnce(kinds: map<string, Pool>, limits: Limits, agentId: string, steps: seq<Step>, src: Source)
    requires Registers(kinds)
    ensures var h := Run(Begin(kinds, limits, agentId), steps).hub;
            && Count(h.entry.dispatches, Dispatch(src, Async)) <= 1
            && (Count(h.entry.dispatches, Dispatch(src, Async)) == 1 ==> src in h.tasks.store.bySource)
  {
    RunSound(kinds, limits, agentId, steps);
    hide LeasesOk, EntryOk, FlowOk, IdsUsed, Run;
    var e := Run(Begin(kinds, limits, agentId), steps).hub.entry;
    assert AsyncDispatches(e, src) == Count(e.dispatches, Dispatch(src, Async));
  }

  /** Once a source was dispatched, no later call reserves it again, in this process or after a restart. */
  lemma LaterCallsAreNotReserved(kinds: map<string, Pool>, limits: Limits, agentId: string, steps: seq<Step>,
                                 r: CallRequest, id: CallId, now: int, io: Io)
    requires Registers(kinds) && id !in Run(Begin(kinds, limits, agentId), steps).used
    requires Count(Run(Begin(kinds, limits, agentId), steps).hub.entry.dispatches, Dispatch(r.source, Async)) == 1
    ensures var result := Reserve(Run(Begin(kinds, limits, agentId), steps).hub.tasks, EmptyRequest(r), id, now, io).1;
            !(result.Ok? && result.value.Reserved?)
  {
    hide LeasesOk, EntryOk, FlowOk, DispatchOk, IdsUsed, Run, Reserve, Effective, Count;
    var w := Run(Begin(kinds, limits, agentId), steps);
    RunSound(kinds, limits, agentId, steps);
    DispatchedAtMostOnce(kinds, limits, agentId, steps, r.source);
    Unused(w.hub, w.used, id);
    GoodTasks(w.hub, w.used);
    ReservedFacts(w.hub.tasks, HeldBy(w.hub.entry.invokes), EmptyRequest(r), id, now, io);
    assert EmptyRequest(r).source == r.source;
  }

  lemma GoodTasks(h: Hub, used: set<CallId>)
    requires Core(h, used)
    ensures Good(h.tasks, HeldBy(h.entry.invokes)) && InvokesOk(h.entry.invokes)
  {
    hide EntryOk, FlowOk, DispatchOk, IdsUsed;
  }

  predicate InvokesSource(step: Step, src: Source) {
    step.OnEntry? && step.entry.InvokeStep? && step.entry.request.source == src
  }

  ghost predicate NeverBlocking(e: Entry, src: Source) {
    && Count(e.dispatches, Dispatch(src, Blocking)) == 0
    && forall id | id in e.invokes :: e.invokes[id].request.source != src
  }

  lemma NeverBlockingKept(w: System, step: Step, src: Source)
    requires NeverBlocking(w.hub.entry, src) && !InvokesSource(step, src)
    ensures NeverBlocking(Apply(w, step).hub.entry, src)
  {
    hide Count, Reserve, AcceptOrRetain, Accept, RejectBeforeAcceptance, Get, Adopt, DropLease, GetBySource, AddSlot, ApplyOnce, Restart,
         EntryEnabled, ContinueHub, CancelHub, WatchHub, StartCancel, StartContinue, StartWatcher, RecordCall, ListsOnce, NonTerminalIds;
    if Enabled(w, step) {
      var e := w.hub.entry;
      match step
      case OnEntry(id, entry) => BlockingLog(e, entry, id, src); EntryNeverBlocking(w, id, entry, src);
      case OnCancel(op, cancel) => OtherEntries(w, step);
      case OnContinue(op, continuation) => OtherEntries(w, step);
      case OnWatch(op, watch) => OtherEntries(w, step);
      case _ =>
    }
  }

  /** Only entry steps and restarts touch submissions, invocations or the dispatch log. */
  lemma OtherEntries(w: System, step: Step)
    requires Enabled(w, step) && (step.OnCancel? || step.OnContinue? || step.OnWatch?)
    ensures Perform(w, step).hub.entry == w.hub.entry
  {
    hide ApplyOnce, StartWatcher, EndWatcher, SetWatchPhase, EndCancel, SetCancelPhase, EndContinue, SetContinuePhase, CancelTurn, EnterContinuation,
         AfterApplied, WatchApplied, AbortWatcher;
  }

  lemma BlockingLog(e: Entry, step: EntryStep, id: CallId, src: Source)
    requires NeverBlocking(e, src)
    ensures id in e.submits ==> Count(e.dispatches + [Dispatch(e.submits[id].request.source, Async)], Dispatch(src, Blocking)) == 0
    ensures id in e.invokes ==> Count(e.dispatches + [Dispatch(e.invokes[id].request.source, Blocking)], Dispatch(src, Blocking)) == 0
  {
    if id in e.submits { CountAppend(e.dispatches, Dispatch(e.submits[id].request.source, Async), Dispatch(src, Blocking)); }
    if id in e.invokes { CountAppend(e.dispatches, Dispatch(e.invokes[id].request.source, Blocking), Dispatch(src, Blocking)); }
  }

  lemma EntryNeverBlocking(w: System, id: CallId, step: EntryStep, src: Source)
    requires NeverBlocking(w.hub.entry, src) && EntryEnabled(w, id, step) && !InvokesSource(OnEntry(id, step), src)
    requires var e := w.hub.entry;
             && (id in e.submits ==> Count(e.dispatches + [Dispatch(e.submits[id].request.source, Async)], Dispatch(src, Blocking)) == 0)
             && (id in e.invokes ==> Count(e.dispatches + [Dispatch(e.invokes[id].request.source, Blocking)], Dispatch(src, Blocking)) == 0)
    ensures NeverBlocking(EntryHub(w, id, step).entry, src)
  {
    hide Count, SubmitAsync, SubmitCapability, SubmitReply, SubmitFail, Adopt, DropLease, GetBySource, AddSlot;
    if step.SubmitStep? || (id in w.hub.entry.submits && !step.InvokeStep? && !step.DoneStep?) {
      SubmitNeverBlocking(w, id, step, src);
    }
  }

  lemma SubmitNeverBlocking(w: System, id: CallId, step: EntryStep, src: Source)
    requires EntryEnabled(w, id, step) && (step.SubmitStep? || (id in w.hub.entry.submits && !step.InvokeStep? && !step.DoneStep?))
    requires id in w.hub.entry.submits ==>
               Count(w.hub.entry.dispatches + [Dispatch(w.hub.entry.submits[id].request.source, Async)], Dispatch(src, Blocking)) == 0
    requires NeverBlocking(w.hub.entry, src)
    ensures NeverBlocking(EntryHub(w, id, step).entry, src)
  {
    hide Count, Reserve, AcceptOrRetain, Accept, RejectBeforeAcceptance, Get, StartWatcher, RecordCall;
  }

  lemma {:induction false} AsyncSourcesNeverBlock(kinds: map<string, Pool>, limits: Limits, agentId: string, steps: seq<Step>, src: Source)
    requires forall i | 0 <= i < |steps| :: !InvokesSource(steps[i], src)
    ensures NeverBlocking(Run(Begin(kinds, limits, agentId), steps).hub.entry, src)
  {
    if steps == [] {
    } else {
      hide NeverBlocking, Apply, InvokesSource;
      var n := |steps| - 1;
      AsyncSourcesNeverBlock(kinds, limits, agentId, steps[..n], src);
      NeverBlockingKept(Run(Begin(kinds, limits, agentId), steps[..n]), steps[n], src);
    }
  }

  /** A source that only asynchronous submissions use reaches the transport at most once altogether. */
  lemma OneDispatchPerAsyncSource(kinds: map<string, Pool>, limits: Limits, agentId: string, steps: seq<Step>, src: Source)
    requires Registers(kinds) && forall i | 0 <= i < |steps| :: !InvokesSource(steps[i], src)
    ensures var e := Run(Begin(kinds, limits, agentId), steps).hub.entry;
            Count(e.dispatches, Dispatch(src, Async)) + Count(e.dispatches, Dispatch(src, Blocking)) <= 1
  {
    hide Run, Count;
    DispatchedAtMostOnce(kinds, limits, agentId, steps, src);
    AsyncSourcesNeverBlock(kinds, limits, agentId, steps, src);
  }

  // ---------------------------------------------------------------- exclusion at the transport

  /**
   In every run a continuation and a tracked cancellation of the same remote task are never at the
   transport together, and a remote task has at most one active continuation.
   */
  lemma NeverTogetherAtTransport(kinds: map<string, Pool>, limits: Limits, agentId: string, steps: seq<Step>, c: OpId, d: OpId)
    requires Registers(kinds)
    ensures var f := Run(Begin(kinds, limits, agentId), steps).hub.flow;
            && (c in f.cancels && f.cancels[c].phase.CancelSent? && d in f.continues && f.continues[d].phase.ContinueSent? ==>
                  f.cancels[c].remoteId != f.continues[d].remoteId)
            && (c in f.continues && d in f.continues && f.continues[c].remoteId == f.continues[d].remoteId ==> c == d)
  {
    hide Core, Run, FlowOk;
    RunSound(kinds, limits, agentId, steps);
    var w := Run(Begin(kinds, limits, agentId), steps);
    FlowOf(w.hub, w.used);
    Excludes(w.hub.flow, w.hub.calls.records.Keys, c, d);
  }

  lemma Excludes(f: Flow, ids: set<CallId>, c: OpId, d: OpId)
    requires FlowOk(f, ids)
    ensures c in f.cancels && f.cancels[c].phase.CancelSent? && d in f.continues ==> f.cancels[c].remoteId != f.continues[d].remoteId
    ensures c in f.continues && d in f.continues && f.continues[c].remoteId == f.continues[d].remoteId ==> c == d
  {
    hide Known;
  }

  // ---------------------------------------------------------------- conservation with blocking calls

  ghost function BlockingOf(h: Hub, key: QuotaKey): set<CallId> {
    set id | id in h.entry.invokes && QuotaKey(h.entry.invokes[id].request.source.sessionId, A2A) == key
  }

  ghost function UnfinishedOf(s: Service, key: QuotaKey): set<TaskId> {
    set id | id in Effective(s) && !Terminal(Effective(s)[id].state) && KeyOf(Effective(s)[id]) == key
  }

  /**
   In every reachable state the active count of each Session and pool is the number of its
   unfinished tasks plus its blocking calls in flight.
   */
  lemma CountsAreConserved(kinds: map<string, Pool>, limits: Limits, agentId: string, steps: seq<Step>, key: QuotaKey)
    requires Registers(kinds)
    ensures var h := Run(Begin(kinds, limits, agentId), steps).hub;
            Active(h.tasks.quota, key) == |UnfinishedOf(h.tasks, key)| + |BlockingOf(h, key)|
  {
    hide Run, Core, Memory.Indexed, OverlayOk, NotifyOk, LeaseOk, LiveLeases, Effective, WithKey, HeldBy, InvokesOk;
    var w := Run(Begin(kinds, limits, agentId), steps);
    RunSound(kinds, limits, agentId, steps);
    var h := w.hub;
    GoodTasks(h, w.used);
    LeaseCount(Effective(h.tasks), h.tasks.leases, LiveLeases(h.tasks.quota), HeldBy(h.entry.invokes), key);
    BlockingCount(h.entry.invokes, BlockingOf(h, key), key);
  }

  lemma {:induction false} BlockingCount(invokes: map<CallId, Invoke>, ids: set<CallId>, key: QuotaKey)
    requires InvokesOk(invokes)
    requires ids == set id | id in invokes && QuotaKey(invokes[id].request.source.sessionId, A2A) == key
    ensures |WithKey(HeldBy(invokes), key)| == |ids|
  {
    var leases := map id | id in invokes :: invokes[id].lease;
    assert ids <= leases.Keys;
    ImageCount(ids, leases);
    forall l ensures l in WithKey(HeldBy(invokes), key) <==> l in set id | id in ids :: leases[id] {
      if l in HeldBy(invokes) && l.key == key {
        var id :| id in invokes && invokes[id].lease == l;
        assert id in ids && leases[id] == l;
      }
    }
    assert WithKey(HeldBy(invokes), key) == set id | id in ids :: leases[id];
  }

  // ---------------------------------------------------------------- nothing accepted is lost

  /**
   Whenever the transport reports a remote task as accepted to an open service that does not know
   it yet, the block that follows records the call and its task: as accepted, or as unknown in the
   overlay when the store failed. Bookkeeping never fails.
   */
  lemma AcceptedIsRecorded(kinds: map<string, Pool>, limits: Limits, agentId: string, steps: seq<Step>,
                           id: CallId, snapshot: Snapshot, now: int, io: Io)
    requires Registers(kinds)
    requires var h := Run(Begin(kinds, limits, agentId), steps).hub;
             && id in h.entry.submits && h.entry.submits[id].phase.AtTransport? && !h.closed
             && snapshot.remoteId !in h.calls.callByRemote
    ensures var h := Run(Begin(kinds, limits, agentId), steps).hub;
            var h' := SubmitReply(h, agentId, id, Accepted(snapshot), now, io);
            && id in h'.calls.records && id in h'.calls.taskBacked && id !in h'.entry.submits
            && h'.calls.callByRemote == h.calls.callByRemote[snapshot.remoteId := id]
            && id in Effective(h'.tasks) && Effective(h'.tasks)[id].state in {snapshot.state, Unknown}
  {
    hide Run, Core, SubmitReply, Effective;
    var w := Run(Begin(kinds, limits, agentId), steps);
    RunSound(kinds, limits, agentId, steps);
    SubmitReplyCore(w.hub, w.used, agentId, id, Accepted(snapshot), now, io);
    AcceptedParts(w.hub, agentId, id, Accepted(snapshot), now, io, w.used);
    SubmitRecorded(w.hub, w.used, agentId, id, snapshot, now, io);
  }

  lemma SubmitRecorded(h: Hub, used: set<CallId>, agentId: string, id: CallId, snapshot: Snapshot, now: int, io: Io)
    requires Core(h, used) && id in h.entry.submits && !h.closed && snapshot.remoteId !in h.calls.callByRemote
    ensures id !in SubmitReply(h, agentId, id, Accepted(snapshot), now, io).entry.submits
  {
    hide LeasesOk, EntryOk, DispatchOk, FlowOk, IdsUsed, SubmitOk, Effective, AcceptOrRetain, AcceptedAs, OnlyTask, StartWatcher, RecordCall;
    SubmitIsReady(h, id, used);
    AcceptLeases(h, agentId, id, h.entry.submits[id], NewRecord(h.entry.submits[id].request, snapshot, false), now, io);
  }

  // ---------------------------------------------------------------- agreement of record and task

  /** What an open service knows of a task-backed call. */
  ghost predicate BackedIn(h: Hub, x: CallId) {
    !h.closed && x in h.calls.taskBacked ==> Backed(h.tasks, h.calls, x)
  }

  /** While the service is open, the record of a task-backed call agrees with its task. */
  ghost predicate AgreesIn(h: Hub, x: CallId) {
    !h.closed && x in h.calls.taskBacked ==> SameState(h.tasks, h.calls, x)
  }

  datatype Attempt = Attempt(id: CallId, snapshot: Snapshot, now: int, io: Io)

  /** The attempt to apply a snapshot that a step makes, if it makes one. */
  ghost function AttemptOf(w: System, step: Step): Option<Attempt> {
    if !Enabled(w, step) then None
    else match step
      case OnCancel(op, CancelAttemptStep(now, io)) =>
        Some(Attempt(w.hub.flow.cancels[op].callId, w.hub.flow.cancels[op].phase.snapshot, now, io))
      case OnContinue(op, ContinueAttemptStep(now, io)) =>
        Some(Attempt(w.hub.flow.continues[op].phase.callId, w.hub.flow.continues[op].phase.snapshot, now, io))
      case OnWatch(op, WatchAttemptStep(_, now, io)) =>
        Some(Attempt(w.hub.flow.watchers[op].callId, WatchSnapshot(w.hub.flow.watchers[op]).value, now, io))
      case _ => None
  }

  /** The step brings call `x` a snapshot that overtakes it, see `Overtaken`. */
  ghost predicate Overtakes(w: System, step: Step, x: CallId) {
    !w.hub.closed && AttemptOf(w, step).Some?
    && var a := AttemptOf(w, step).value;
       a.id == x && Overtaken(w.hub.tasks, w.hub.calls, x, a.snapshot, a.io)
  }

  /** The call is as it was, or it is not task-backed afterwards. */
  ghost predicate Spared(h: Hub, h': Hub, x: CallId) {
    h'.closed
    || (!h.closed && (x in h'.calls.taskBacked ==> x in h.calls.taskBacked && LeftAlone(h.tasks, h'.tasks, h.calls, h'.calls, x)))
    || x !in h'.calls.taskBacked
  }

  /** Backed as before, and in agreement exactly as before. */
  ghost predicate Carries(h: Hub, h': Hub, x: CallId) {
    BackedIn(h', x) && (AgreesIn(h, x) ==> AgreesIn(h', x))
  }

  lemma SparedCarries(h: Hub, h': Hub, x: CallId)
    requires Spared(h, h', x) && BackedIn(h, x)
    ensures Carries(h, h', x)
  {
    hide Backed, SameState, LeftAlone;
    if !h.closed && !h'.closed && x in h'.calls.taskBacked { LeftAloneKeeps(h.tasks, h'.tasks, h.calls, h'.calls, x); }
  }

  /** A block that touches at most the task of `id`, which backs no call, and leaves all calls as they are. */
  lemma BesideSpares(h: Hub, h': Hub, id: CallId, x: CallId)
    requires OnlyTask(h.tasks, h'.tasks, id) && id !in h.calls.taskBacked && h'.calls == h.calls && h'.closed == h.closed
    ensures Spared(h, h', x)
  {
    hide OnlyTask, LeftAlone;
    if x != id { OthersLeftAlone(h.tasks, h'.tasks, h.calls, h'.calls, x, id); }
  }

  lemma FlowSpares(h: Hub, f: Flow, x: CallId)
    ensures Spared(h, h.(flow := f), x)
  {
  }

  lemma SubmitSpares(h: Hub, used: set<CallId>, r: CallRequest, id: CallId, now: int, io: Io, x: CallId)
    requires Core(h, used) && id !in used
    ensures Spared(h, SubmitAsync(h, r, id, now, io), x)
  {
    var h' := SubmitAsync(h, r, id, now, io);
    assert OnlyTask(h.tasks, h.tasks, id);
    hide LeasesOk, EntryOk, DispatchOk, FlowOk, IdsUsed, Reserve, OnlyTask, EmptyRequest, Effective, Spared;
    Unused(h, used, id);
    ReserveLeases(h, r, id, now, io);
    BesideSpares(h, h', id, x);
  }

  lemma InvokeSpares(h: Hub, used: set<CallId>, r: CallRequest, id: CallId, readable: bool, x: CallId)
    requires Core(h, used) && id !in used
    ensures Spared(h, InvokeBlocking(h, r, id, readable), x)
  {
    hide LeasesOk, EntryOk, DispatchOk, FlowOk, IdsUsed, OnlyTask, Acquire, GetBySource, Effective, Spared;
    Unused(h, used, id);
    InvokeBlockingCore(h, used, r, id, readable);
    BesideSpares(h, InvokeBlocking(h, r, id, readable), id, x);
  }

  lemma CapabilitySpares(h: Hub, id: CallId, found: bool, x: CallId)
    ensures id in h.entry.submits ==> Spared(h, SubmitCapability(h, id, found), x)
    ensures id in h.entry.invokes ==> Spared(h, InvokeCapability(h, id, found), x)
  {
  }

  lemma SubmitFailSpares(h: Hub, used: set<CallId>, agentId: string, id: CallId, text: string, readable: bool, now: int, io: Io, x: CallId)
    requires Core(h, used) && id in h.entry.submits && h.entry.submits[id].phase.Failing?
    ensures Spared(h, SubmitFail(h, agentId, id, text, readable, now, io), x)
  {
    hide Core, OnlyTask, Accept, RejectBeforeAcceptance, Get, Spared;
    SubmitFailCore(h, used, agentId, id, text, readable, now, io);
    SubmitIsReady(h, id, used);
    BesideSpares(h, SubmitFail(h, agentId, id, text, readable, now, io), id, x);
  }

  lemma InvokeFailSpares(h: Hub, used: set<CallId>, agentId: string, id: CallId, now: int, io: Io, x: CallId)
    requires Core(h, used) && id in h.entry.invokes && h.entry.invokes[id].phase.Failing?
    ensures Spared(h, InvokeFail(h, agentId, id, now, io), x)
  {
    hide Core, OnlyTask, Adopt, DropLease, Spared;
    InvokeFailCore(h, used, agentId, id, now, io);
    InvokeIsReady(h, id, used);
    BesideSpares(h, InvokeFail(h, agentId, id, now, io), id, x);
  }

  lemma InvokeDoneSpares(h: Hub, used: set<CallId>, id: CallId, x: CallId)
    requires Core(h, used) && id in h.entry.invokes
    ensures Spared(h, InvokeDone(h, id), x)
  {
    hide Core, OnlyTask, DropLease, Spared;
    InvokeDoneCore(h, used, id);
    InvokeIsReady(h, id, used);
    BesideSpares(h, InvokeDone(h, id), id, x);
  }

  /** A new record for a blocking call is no task-backed one. */
  lemma InvokeReplySpares(h: Hub, used: set<CallId>, id: CallId, reply: Reply, x: CallId)
    requires Core(h, used) && id in h.entry.invokes && h.entry.invokes[id].phase.AtTransport?
    ensures Spared(h, InvokeReply(h, id, reply), x)
  {
    hide Core, Effective, StartWatcher;
    InvokeIsReady(h, id, used);
  }

  /** The reply to one submission leaves the other calls alone. */
  lemma SubmitReplySpares(h: Hub, used: set<CallId>, agentId: string, id: CallId, reply: Reply, now: int, io: Io, x: CallId)
    requires Core(h, used) && x != id && id in h.entry.submits && h.entry.submits[id].phase.AtTransport?
    ensures Spared(h, SubmitReply(h, agentId, id, reply, now, io), x)
  {
    hide Core, Effective, AcceptOrRetain, StartWatcher, OnlyTask, LeftAlone;
    var h' := SubmitReply(h, agentId, id, reply, now, io);
    if reply.Accepted? && !h.closed && reply.snapshot.remoteId !in h.calls.callByRemote {
      AcceptedParts(h, agentId, id, reply, now, io, used);
      SubmitReplyCore(h, used, agentId, id, reply, now, io);
      SubmitReplyOnly(h, used, agentId, id, reply, now, io);
      hide SubmitReply;
      OthersLeftAlone(h.tasks, h'.tasks, h.calls, h'.calls, x, id);
    } else {
      FlowSpares(h, h.flow, x);
    }
  }

  lemma SubmitReplyOnly(h: Hub, used: set<CallId>, agentId: string, id: CallId, reply: Reply, now: int, io: Io)
    requires Core(h, used) && id in h.entry.submits && reply.Accepted? && !h.closed && reply.snapshot.remoteId !in h.calls.callByRemote
    ensures OnlyTask(h.tasks, SubmitReply(h, agentId, id, reply, now, io).tasks, id)
  {
    hide LeasesOk, EntryOk, DispatchOk, FlowOk, IdsUsed, SubmitOk, Effective, AcceptOrRetain, AcceptedAs, OnlyTask, StartWatcher, RecordCall;
    SubmitIsReady(h, id, used);
    AcceptLeases(h, agentId, id, h.entry.submits[id], NewRecord(h.entry.submits[id].request, reply.snapshot, false), now, io);
  }

  /** The reply to its own submission begins a task-backed call in agreement. */
  lemma SubmitReplyCarries(h: Hub, used: set<CallId>, agentId: string, id: CallId, reply: Reply, now: int, io: Io)
    requires Core(h, used) && BackedIn(h, id) && (!h.closed ==> h.calls.handled <= h.calls.records.Keys)
    requires id in h.entry.submits && h.entry.submits[id].phase.AtTransport?
    ensures Carries(h, SubmitReply(h, agentId, id, reply, now, io), id)
  {
    hide Core, Effective, AcceptOrRetain, StartWatcher, Backed, SameState, OnlyTask, LeftAlone;
    if reply.Accepted? && !h.closed && reply.snapshot.remoteId !in h.calls.callByRemote {
      AcceptedParts(h, agentId, id, reply, now, io, used);
      AcceptanceAgrees(h, used, agentId, id, reply, now, io);
    } else {
      SparedCarries(h, h.(entry := SubmitReply(h, agentId, id, reply, now, io).entry), id) by { FlowSpares(h, h.flow, id); }
    }
  }

  /** The step is the reply to the submission of `x` itself. */
  predicate RepliesTo(h: Hub, step: Step, x: CallId) {
    step.OnEntry? && step.id == x && step.entry.ReplyStep? && x in h.entry.submits
  }

  lemma EntrySpares(w: System, id: CallId, step: EntryStep, x: CallId)
    requires Sound(w) && EntryEnabled(w, id, step) && !RepliesTo(w.hub, OnEntry(id, step), x)
    ensures Spared(w.hub, EntryHub(w, id, step), x)
  {
    hide Core, Spared, SubmitAsync, InvokeBlocking, SubmitCapability, InvokeCapability, SubmitReply, InvokeReply, SubmitFail, InvokeFail, InvokeDone;
    var h := w.hub;
    match step
    case SubmitStep(r, now, io) => SubmitSpares(h, w.used, r, id, now, io, x);
    case InvokeStep(r, readable) => InvokeSpares(h, w.used, r, id, readable, x);
    case CapabilityStep(found) => CapabilitySpares(h, id, found, x);
    case ReplyStep(reply, now, io) =>
      if id in h.entry.submits { SubmitReplySpares(h, w.used, w.agentId, id, reply, now, io, x); }
      else { InvokeReplySpares(h, w.used, id, reply, x); }
    case FailStep(text, readable, now, io) =>
      if id in h.entry.submits { SubmitFailSpares(h, w.used, w.agentId, id, text, readable, now, io, x); }
      else { InvokeFailSpares(h, w.used, w.agentId, id, now, io, x); }
    case DoneStep => InvokeDoneSpares(h, w.used, id, x);
  }

  /** An attempt on a call keeps its copies in agreement exactly unless it overtakes the call. */
  lemma AttemptDecides(h: Hub, used: set<CallId>, a: Attempt, f: Flow, x: CallId)
    requires Core(h, used) && BackedIn(h, x) && a.id in h.calls.records
    ensures var (s', c', _) := ApplyOnce(h.tasks, h.calls, a.id, a.snapshot, a.now, a.io);
            var h' := h.(tasks := s', calls := c', flow := f);
            && BackedIn(h', x)
            && (AgreesIn(h, x) ==>
                  (AgreesIn(h', x) <==> !(!h.closed && a.id == x && Overtaken(h.tasks, h.calls, x, a.snapshot, a.io))))
  {
    hide LeasesOk, EntryOk, DispatchOk, FlowOk, IdsUsed, ApplyOnce, Backed, SameState, LeftAlone, OnlyTask, Effective;
    var (s', c', _) := ApplyOnce(h.tasks, h.calls, a.id, a.snapshot, a.now, a.io);
    ApplyLeases(h, a.id, a.snapshot, a.now, a.io);
    ApplyOthers(h.tasks, h.calls, a.id, a.snapshot, a.now, a.io);
    if !h.closed && x in h.calls.taskBacked {
      if x == a.id {
        GoodLeases(h, used);
        AttemptAgrees(h.tasks, HeldBy(h.entry.invokes), h.calls, x, a.snapshot, a.now, a.io);
      } else {
        OthersLeftAlone(h.tasks, s', h.calls, c', x, a.id);
        LeftAloneKeeps(h.tasks, s', h.calls, c', x);
      }
    }
  }

  lemma GoodLeases(h: Hub, used: set<CallId>)
    requires Core(h, used)
    ensures Good(h.tasks, HeldBy(h.entry.invokes))
  {
    hide Good, EntryOk, DispatchOk, FlowOk, IdsUsed;
  }

  /** The hub after an attempt is that of the one application, up to the operations. */
  lemma AttemptHub(w: System, step: Step)
    requires AttemptOf(w, step).Some?
    ensures var a, h' := AttemptOf(w, step).value, Perform(w, step).hub;
            var (s', c', _) := ApplyOnce(w.hub.tasks, w.hub.calls, a.id, a.snapshot, a.now, a.io);
            a.id in w.hub.calls.records && h' == w.hub.(tasks := s', calls := c', flow := h'.flow)
  {
    hide ApplyOnce, CancelAttempt, WatchAttempt, EndContinue, SetContinuePhase, EntryHub;
    match step
    case OnCancel(op, CancelAttemptStep(now, io)) => CancelAttemptParts(w.hub, op, now, io);
    case OnContinue(op, ContinueAttemptStep(now, io)) => assert CallOf(w.hub.flow.continues[op].phase) == Some(w.hub.flow.continues[op].phase.callId);
    case OnWatch(op, WatchAttemptStep(text, now, io)) => WatchAttemptParts(w.hub, op, text, now, io);
  }

  lemma AbortKeepsWatchers(f: Flow, id: CallId)
    ensures AbortWatcher(f, id).watchers == f.watchers && AbortWatcher(f, id).continues == f.continues
  {
  }

  lemma CancelAttemptParts(h: Hub, op: OpId, now: int, io: Io)
    requires op in h.flow.cancels && h.flow.cancels[op].phase.CancelRecording? && h.flow.cancels[op].callId in h.calls.records
    ensures var c := h.flow.cancels[op];
            var (s', c', _) := ApplyOnce(h.tasks, h.calls, c.callId, c.phase.snapshot, now, io);
            CancelAttempt(h, op, now, io) == h.(tasks := s', calls := c', flow := CancelAttempt(h, op, now, io).flow)
  {
    ApplyKeepsRecords(h, h.flow.cancels[op].callId, h.flow.cancels[op].phase.snapshot, now, io);
    hide ApplyOnce, EndCancel, AfterApplied;
  }

  lemma ContinueTurnWatchers(h: Hub, op: OpId, callerAborted: bool)
    requires op in h.flow.continues
    ensures ContinueTurn(h, op, callerAborted).flow.watchers == h.flow.watchers
    ensures ContinueTurn(h, op, callerAborted) == h.(flow := ContinueTurn(h, op, callerAborted).flow)
  {
    hide AbortWatcher, EnterContinuation, EndContinue, SetContinuePhase;
    var d := h.flow.continues[op];
    if d.phase.ContinueQueued? && d.remoteId in h.calls.callByRemote {
      var id := h.calls.callByRemote[d.remoteId];
      AbortKeepsWatchers(h.flow, id);
      if id in h.flow.activeWatcher { PhasesKeepWatchers(AbortWatcher(h.flow, id), op, ContinueWaiting(id, h.flow.activeWatcher[id])); }
      EnterKeepsWatchers(h, op, id, callerAborted);
    }
    if d.phase.ContinueWaiting? { EnterKeepsWatchers(h, op, d.phase.callId, callerAborted); }
    PhasesKeepWatchers(h.flow, op, d.phase);
  }

  lemma EnterKeepsWatchers(h: Hub, op: OpId, id: CallId, callerAborted: bool)
    requires op in h.flow.continues
    ensures EnterContinuation(h, op, id, callerAborted).watchers == h.flow.watchers
  {
    hide EndContinue, SetContinuePhase;
    PhasesKeepWatchers(h.flow, op, h.flow.continues[op].phase);
    if id in h.calls.records { PhasesKeepWatchers(h.flow, op, ContinueSent(id, h.calls.records[id])); }
  }

  lemma PhasesKeepWatchers(f: Flow, op: OpId, phase: ContinuePhase)
    requires op in f.continues
    ensures SetContinuePhase(f, op, phase).watchers == f.watchers && EndContinue(f, op).watchers == f.watchers
  { }

  lemma WatchAttemptParts(h: Hub, op: OpId, text: string, now: int, io: Io)
    requires op in h.flow.watchers && h.flow.watchers[op].callId in h.calls.records && WatchSnapshot(h.flow.watchers[op]).Some?
    ensures var w := h.flow.watchers[op];
            var (s', c', _) := ApplyOnce(h.tasks, h.calls, w.callId, WatchSnapshot(w).value, now, io);
            WatchAttempt(h, op, text, now, io) == h.(tasks := s', calls := c', flow := WatchAttempt(h, op, text, now, io).flow)
  {
    var w := h.flow.watchers[op];
    ApplyKeepsRecords(h, w.callId, WatchSnapshot(w).value, now, io);
    hide ApplyOnce, WatchApplied, SetWatchPhase, EndWatcher, KindOf, WatchError, WatchSnapshot;
    var (s', c', _) := ApplyOnce(h.tasks, h.calls, w.callId, WatchSnapshot(w).value, now, io);
    WatchErrorFlow(h.(tasks := s', calls := c'), op, text);
  }

  /** Blocks of an operation that apply no snapshot leave every call alone, except that closing may restore a paused record. */
  lemma OperationSpares(w: System, step: Step, x: CallId)
    requires Enabled(w, step) && (step.OnCancel? || step.OnContinue? || step.OnWatch?) && AttemptOf(w, step).None?
    ensures Spared(w.hub, Perform(w, step).hub, x)
  {
    hide StartWatcher, EndWatcher, SetWatchPhase, AbortWatcher, EndCancel, SetCancelPhase, EndContinue, SetContinuePhase, CancelTurn,
         EnterContinuation, WatchError, WatchEvent, WatchAttempt, ContinueTurn, CancelAttempt, ContinueAttempt, Spared, ApplyOnce;
    var h, f := w.hub, Perform(w, step).hub.flow;
    FlowSpares(h, f, x);
    match step
    case OnContinue(op, ContinueTurnStep(callerAborted)) => ContinueTurnWatchers(h, op, callerAborted);
    case OnContinue(op, ContinueFinishStep) => FinishSpares(h, op, x);
    case OnWatch(op, WatchEventStep(event, text)) => WatchEventFlow(h, op, event, text);
    case OnWatch(op, WatchGiveUpStep(text)) => WatchErrorFlow(h, op, text);
    case _ =>
  }

  lemma FinishSpares(h: Hub, op: OpId, x: CallId)
    requires op in h.flow.continues && h.flow.continues[op].phase.ContinueRecorded?
    ensures Spared(h, ContinueFinish(h, op), x)
  {
    hide StartWatcher, EndContinue, SetContinuePhase;
  }

  lemma RestartSpares(h: Hub, limits: Limits, order: seq<TaskId>, now: int, io: Io, x: CallId)
    ensures Spared(h, RestartHub(h, limits, order, now, io), x)
  {
    hide Restart;
  }

  /** A step that neither applies a snapshot nor is the reply to the call's own submission leaves the call alone. */
  lemma StepSpares(w: System, step: Step, x: CallId)
    requires Sound(w) && Enabled(w, step) && AttemptOf(w, step).None? && !RepliesTo(w.hub, step, x)
    ensures Spared(w.hub, Perform(w, step).hub, x)
  {
    hide Core, Spared, EntryHub, CancelHub, ContinueHub, WatchHub, EntryEnabled, CancelEnabled, ContinueEnabled, WatchEnabled, RestartHub, ListsOnce,
         NonTerminalIds, Get, CancelCall, ContinueCall, AttemptOf;
    match step
    case OnEntry(id, entry) => EntrySpares(w, id, entry, x);
    case OnCancel(_, _) => OperationSpares(w, step, x);
    case OnContinue(_, _) => OperationSpares(w, step, x);
    case OnWatch(_, _) => OperationSpares(w, step, x);
    case RestartStep(limits, order, now, io) => RestartSpares(w.hub, limits, order, now, io, x);
    case _ => OutsideSpares(w, step, x);
  }

  /** One step: what is known stays known, and agreement ends exactly when the step overtakes the call. */
  lemma StepDecides(w: System, step: Step, x: CallId)
    requires Sound(w) && Enabled(w, step) && BackedIn(w.hub, x)
    requires !w.hub.closed ==> w.hub.calls.handled <= w.hub.calls.records.Keys
    ensures BackedIn(Perform(w, step).hub, x)
    ensures AgreesIn(w.hub, x) ==> (AgreesIn(Perform(w, step).hub, x) <==> !Overtakes(w, step, x))
  {
    hide Core, BackedIn, AgreesIn, Overtaken, Spared, Perform, Enabled, ApplyOnce, SubmitReply, AttemptOf;
    var h, h' := w.hub, Perform(w, step).hub;
    if AttemptOf(w, step).Some? {
      var a := AttemptOf(w, step).value;
      AttemptHub(w, step);
      AttemptDecides(h, w.used, a, h'.flow, x);
    } else if RepliesTo(h, step, x) {
      OwnReply(w, x, step.entry.reply, step.entry.now, step.entry.io);
      SubmitReplyCarries(h, w.used, w.agentId, x, step.entry.reply, step.entry.now, step.entry.io);
    } else {
      StepSpares(w, step, x);
      SparedCarries(h, h', x);
    }
  }

  lemma OwnReply(w: System, x: CallId, reply: Reply, now: int, io: Io)
    requires Enabled(w, OnEntry(x, ReplyStep(reply, now, io))) && x in w.hub.entry.submits
    ensures Perform(w, OnEntry(x, ReplyStep(reply, now, io))).hub == SubmitReply(w.hub, w.agentId, x, reply, now, io)
    ensures w.hub.entry.submits[x].phase.AtTransport?
  {
    hide SubmitReply;
  }

  lemma OutsideSpares(w: System, step: Step, x: CallId)
    requires Enabled(w, step) && (step.CancelCallStep? || step.ContinueCallStep? || step.AbortStep? || step.CloseStep?)
    ensures Spared(w.hub, Perform(w, step).hub, x)
  {
    hide Get, StartCancel, StartContinue;
    FlowSpares(w.hub, Perform(w, step).hub.flow, x);
  }

  lemma {:induction false} RunBacked(kinds: map<string, Pool>, limits: Limits, agentId: string, steps: seq<Step>, x: CallId)
    requires Registers(kinds)
    ensures BackedIn(Run(Begin(kinds, limits, agentId), steps).hub, x)
  {
    hide Enabled, Perform, Sound, Registers, Backed;
    if steps != [] {
      var n := |steps| - 1;
      var w := Run(Begin(kinds, limits, agentId), steps[..n]);
      RunBacked(kinds, limits, agentId, steps[..n], x);
      RunSound(kinds, limits, agentId, steps[..n]);
      HandledRecorded(kinds, limits, agentId, steps[..n]);
      if Enabled(w, steps[n]) { StepDecides(w, steps[n], x); }
    }
  }

  /** The system after the first `n` steps of a run. */
  ghost function Prefix(kinds: map<string, Pool>, limits: Limits, agentId: string, steps: seq<Step>, n: nat): System
    requires n <= |steps|
  {
    Run(Begin(kinds, limits, agentId), steps[..n])
  }

  /** One step further along a run. */
  lemma PrefixDecides(kinds: map<string, Pool>, limits: Limits, agentId: string, steps: seq<Step>, n: nat, x: CallId)
    requires Registers(kinds) && n < |steps| && AgreesIn(Prefix(kinds, limits, agentId, steps, n).hub, x)
    ensures AgreesIn(Prefix(kinds, limits, agentId, steps, n + 1).hub, x)
       <==> !Overtakes(Prefix(kinds, limits, agentId, steps, n), steps[n], x)
  {
    hide Enabled, Perform, Sound, Registers, BackedIn, AgreesIn, Overtaken;
    var w := Prefix(kinds, limits, agentId, steps, n);
    assert steps[..n + 1][..n] == steps[..n];
    RunBacked(kinds, limits, agentId, steps[..n], x);
    RunSound(kinds, limits, agentId, steps[..n]);
    HandledRecorded(kinds, limits, agentId, steps[..n]);
    if Enabled(w, steps[n]) { StepDecides(w, steps[n], x); }
  }

  /**
   Over every run, with any interleaving and any failed and retried store operations, and for every
   call by itself: the record agrees with the task in every state in which the service is open, if and
   only if no attempt of the run brings the call a snapshot that overtakes it.
   */
  lemma AgreesUnlessOvertaken(kinds: map<string, Pool>, limits: Limits, agentId: string, steps: seq<Step>, x: CallId)
    requires Registers(kinds)
    ensures (forall n | 0 <= n <= |steps| :: AgreesIn(Prefix(kinds, limits, agentId, steps, n).hub, x))
       <==> (forall n | 0 <= n < |steps| :: !Overtakes(Prefix(kinds, limits, agentId, steps, n), steps[n], x))
  {
    hide AgreesIn, Overtakes, Registers, Prefix;
    assert AgreesIn(Prefix(kinds, limits, agentId, steps, 0).hub, x) by { BeginAgrees(kinds, limits, agentId, steps, x); }
    if forall n | 0 <= n <= |steps| :: AgreesIn(Prefix(kinds, limits, agentId, steps, n).hub, x) {
      forall n | 0 <= n < |steps| ensures !Overtakes(Prefix(kinds, limits, agentId, steps, n), steps[n], x) {
        PrefixDecides(kinds, limits, agentId, steps, n, x);
        assert AgreesIn(Prefix(kinds, limits, agentId, steps, n + 1).hub, x);
      }
    }
    if forall n | 0 <= n < |steps| :: !Overtakes(Prefix(kinds, limits, agentId, steps, n), steps[n], x) {
      forall n | 0 <= n <= |steps| ensures AgreesIn(Prefix(kinds, limits, agentId, steps, n).hub, x) {
        AgreesUpTo(kinds, limits, agentId, steps, n, x);
      }
    }
  }

  lemma {:induction false} AgreesUpTo(kinds: map<string, Pool>, limits: Limits, agentId: string, steps: seq<Step>, n: nat, x: CallId)
    requires Registers(kinds) && n <= |steps|
    requires forall i | 0 <= i < n :: !Overtakes(Prefix(kinds, limits, agentId, steps, i), steps[i], x)
    ensures AgreesIn(Prefix(kinds, limits, agentId, steps, n).hub, x)
  {
    hide AgreesIn, Overtakes, Registers, Prefix;
    if n == 0 {
      BeginAgrees(kinds, limits, agentId, steps, x);
    } else {
      AgreesUpTo(kinds, limits, agentId, steps, n - 1, x);
      PrefixDecides(kinds, limits, agentId, steps, n - 1, x);
    }
  }

  lemma BeginAgrees(kinds: map<string, Pool>, limits: Limits, agentId: string, steps: seq<Step>, x: CallId)
    ensures AgreesIn(Prefix(kinds, limits, agentId, steps, 0).hub, x)
  {
    assert steps[..0] == [];
  }

  /**
   As long as no snapshot overtakes a call, its record is in the state of its task, or the task is
   still unknown. A handled call is final and equal in both, whatever happened before.
   */
  lemma RecordsAgree(kinds: map<string, Pool>, limits: Limits, agentId: string, steps: seq<Step>, id: CallId)
    requires Registers(kinds)
    ensures var h := Run(Begin(kinds, limits, agentId), steps).hub;
            !h.closed && id in h.calls.taskBacked ==>
              && id in h.calls.records && id in Effective(h.tasks)
              && var t, r := Effective(h.tasks)[id], h.calls.records[id];
              && ((forall n | 0 <= n < |steps| :: !Overtakes(Prefix(kinds, limits, agentId, steps, n), steps[n], id)) ==>
                    t.state == Unknown || t.state == r.state)
              && (id in h.calls.handled ==> Terminal(r.state) && t.state == r.state)
  {
    hide Run, Effective, Registers, Terminal, Overtakes;
    RunBacked(kinds, limits, agentId, steps, id);
    assert steps[..|steps|] == steps;
    if forall n | 0 <= n < |steps| :: !Overtakes(Prefix(kinds, limits, agentId, steps, n), steps[n], id) {
      AgreesUpTo(kinds, limits, agentId, steps, |steps|, id);
    }
  }

  // ---------------------------------------------------------------- handled calls are final

  ghost predicate KeepsHandled(c: Calls, c': Calls) {
    && (c.handled <= c.records.Keys ==> c'.handled <= c'.records.Keys)
    && (forall id | id in c.handled && id in c.records :: id in c'.handled && id in c'.records && c'.records[id] == c.records[id])
  }

  lemma ApplyKeepsHandled(s: Service, c: Calls, id: CallId, snapshot: Snapshot, now: int, io: Io)
    requires id in c.records
    ensures KeepsHandled(c, ApplyOnce(s, c, id, snapshot, now, io).1)
  {
    hide UpdateAccepted, Updated, UpdateOf;
  }

  lemma StepKeepsHandled(w: System, step: Step)
    requires Sound(w) && Enabled(w, step) && !step.RestartStep? && !Perform(w, step).hub.closed
    ensures KeepsHandled(w.hub.calls, Perform(w, step).hub.calls)
    ensures !w.hub.closed
  {
    hide Core, ApplyOnce, StartWatcher, EndWatcher, SetWatchPhase, AbortWatcher, EndCancel, SetCancelPhase, EndContinue, SetContinuePhase,
         CancelTurn, EnterContinuation, AfterApplied, WatchApplied, WatchError, ListsOnce, NonTerminalIds, EntryHub, EntryEnabled, WatchEvent,
         WatchAttempt, ContinueTurn;
    var h := w.hub;
    match step
    case OnEntry(id, entry) => EntryKeepsHandled(w, id, entry);
    case OnCancel(op, CancelAttemptStep(now, io)) =>
      var c := h.flow.cancels[op];
      ApplyKeepsHandled(h.tasks, h.calls, c.callId, c.phase.snapshot, now, io);
      CancelAttemptParts(h, op, now, io);
    case OnContinue(op, ContinueAttemptStep(now, io)) =>
      var phase := h.flow.continues[op].phase;
      assert CallOf(phase) == Some(phase.callId);
      ApplyKeepsHandled(h.tasks, h.calls, phase.callId, phase.snapshot, now, io);
    case OnContinue(op, ContinueTurnStep(callerAborted)) => ContinueTurnWatchers(h, op, callerAborted);
    case OnWatch(op, WatchEventStep(event, text)) => WatchEventFlow(h, op, event, text);
    case OnWatch(op, WatchGiveUpStep(text)) => WatchErrorFlow(h, op, text);
    case OnWatch(op, WatchAttemptStep(text, now, io)) =>
      var watcher := h.flow.watchers[op];
      ApplyKeepsHandled(h.tasks, h.calls, watcher.callId, WatchSnapshot(watcher).value, now, io);
      WatchAttemptParts(h, op, text, now, io);
    case _ =>
  }

  lemma EntryKeepsHandled(w: System, id: CallId, step: EntryStep)
    requires Sound(w) && EntryEnabled(w, id, step)
    ensures KeepsHandled(w.hub.calls, EntryHub(w, id, step).calls) && EntryHub(w, id, step).closed == w.hub.closed
  {
    hide Core, Reserve, EmptyRequest, AcceptOrRetain, Accept, RejectBeforeAcceptance, Get, Adopt, DropLease, GetBySource, AddSlot, StartWatcher;
    var h := w.hub;
    if id in h.entry.submits { SubmitIsReady(h, id, w.used); }
    if id in h.entry.invokes { InvokeIsReady(h, id, w.used); }
  }

  lemma {:induction false} HandledRecorded(kinds: map<string, Pool>, limits: Limits, agentId: string, steps: seq<Step>)
    requires Registers(kinds)
    ensures var h := Run(Begin(kinds, limits, agentId), steps).hub;
            !h.closed ==> h.calls.handled <= h.calls.records.Keys
  {
    hide Enabled, Perform, Sound, Registers;
    if steps != [] {
      var n := |steps| - 1;
      HandledRecorded(kinds, limits, agentId, steps[..n]);
      RunSound(kinds, limits, agentId, steps[..n]);
      var w := Run(Begin(kinds, limits, agentId), steps[..n]);
      if Enabled(w, steps[n]) {
        if steps[n].RestartStep? { RestartHandled(w, steps[n]); }
        else if !Perform(w, steps[n]).hub.closed { StepKeepsHandled(w, steps[n]); }
      }
    }
  }

  lemma RestartHandled(w: System, step: Step)
    requires step.RestartStep? && Enabled(w, step) && (!w.hub.closed ==> w.hub.calls.handled <= w.hub.calls.records.Keys)
    ensures var h := Perform(w, step).hub; !h.closed ==> h.calls.handled <= h.calls.records.Keys
  {
    hide Restart, ListsOnce, NonTerminalIds;
  }

  /** As long as the process lives and is open, a call whose final snapshot was handled never changes again. */
  lemma {:induction false} HandledRecordsAreFinal(kinds: map<string, Pool>, limits: Limits, agentId: string,
                                                  steps: seq<Step>, more: seq<Step>, id: CallId)
    requires Registers(kinds) && forall i | 0 <= i < |more| :: !more[i].RestartStep?
    ensures var before, after := Run(Begin(kinds, limits, agentId), steps).hub, Run(Begin(kinds, limits, agentId), steps + more).hub;
            !after.closed && id in before.calls.handled ==>
              && id in before.calls.records && id in after.calls.records && id in after.calls.handled
              && after.calls.records[id] == before.calls.records[id]
    ensures Run(Begin(kinds, limits, agentId), steps).hub.closed ==> Run(Begin(kinds, limits, agentId), steps + more).hub.closed
  {
    hide Enabled, Perform, Sound, Registers;
    if more == [] {
      assert steps + more == steps;
      HandledRecorded(kinds, limits, agentId, steps);
    } else {
      var n := |more| - 1;
      HandledRecordsAreFinal(kinds, limits, agentId, steps, more[..n], id);
      var all := steps + more;
      assert all[..|all| - 1] == steps + more[..n] && all[|all| - 1] == more[n];
      var w := Run(Begin(kinds, limits, agentId), steps + more[..n]);
      RunSound(kinds, limits, agentId, steps + more[..n]);
      HandledRecorded(kinds, limits, agentId, steps + more[..n]);
      if Enabled(w, more[n]) && !Perform(w, more[n]).hub.closed { StepKeepsHandled(w, more[n]); }
    }
  }

  // ---------------------------------------------------------------- how a call comes to be overtaken

  /** The task of a call is final and nobody has handled that. */
  ghost predicate Unsettled(h: Hub, x: CallId) {
    !h.closed && x in h.calls.taskBacked && x !in h.calls.handled && x in Effective(h.tasks) && Terminal(Effective(h.tasks)[x].state)
  }

  /** The step accepts the submission of `x` as finished. */
  predicate AcceptsFinal(step: Step, x: CallId) {
    step.OnEntry? && step.id == x && step.entry.ReplyStep? && step.entry.reply.Accepted? && Terminal(step.entry.reply.snapshot.state)
  }

  lemma AttemptLeavesSettled(h: Hub, used: set<CallId>, a: Attempt, f: Flow, x: CallId)
    requires Core(h, used) && BackedIn(h, x) && a.id in h.calls.records
    ensures var (s', c', _) := ApplyOnce(h.tasks, h.calls, a.id, a.snapshot, a.now, a.io);
            Unsettled(h.(tasks := s', calls := c', flow := f), x) ==> Unsettled(h, x)
  {
    hide LeasesOk, EntryOk, DispatchOk, FlowOk, IdsUsed, ApplyOnce, LeftAlone, OnlyTask, Effective, Terminal, Good;
    var (s', c', _) := ApplyOnce(h.tasks, h.calls, a.id, a.snapshot, a.now, a.io);
    ApplyLeases(h, a.id, a.snapshot, a.now, a.io);
    ApplyOthers(h.tasks, h.calls, a.id, a.snapshot, a.now, a.io);
    if !h.closed && x in h.calls.taskBacked {
      if x == a.id {
        GoodLeases(h, used);
        AttemptSettles(h.tasks, HeldBy(h.entry.invokes), h.calls, x, a.snapshot, a.now, a.io);
      } else {
        OthersLeftAlone(h.tasks, s', h.calls, c', x, a.id);
        LeftAloneTask(h.tasks, s', h.calls, c', x);
      }
    }
  }

  lemma LeftAloneTask(s: Service, s': Service, c: Calls, c': Calls, id: CallId)
    requires LeftAlone(s, s', c, c', id) && Backed(s, c, id)
    ensures id in Effective(s) && id in Effective(s') && Effective(s')[id] == Effective(s)[id] && (id in c'.handled <==> id in c.handled)
  {
    hide Effective, Terminal;
  }

  lemma StepUnsettles(w: System, step: Step, x: CallId)
    requires Sound(w) && Enabled(w, step) && BackedIn(w.hub, x) && Unsettled(Perform(w, step).hub, x)
    ensures Unsettled(w.hub, x) || AcceptsFinal(step, x)
  {
    hide Core, BackedIn, Spared, Perform, Enabled, ApplyOnce, SubmitReply, AttemptOf, Unsettled, Terminal;
    var h, h' := w.hub, Perform(w, step).hub;
    if AttemptOf(w, step).Some? {
      AttemptHub(w, step);
      AttemptLeavesSettled(h, w.used, AttemptOf(w, step).value, h'.flow, x);
    } else if RepliesTo(h, step, x) {
      OwnReply(w, x, step.entry.reply, step.entry.now, step.entry.io);
      ReplyUnsettles(h, w.used, w.agentId, x, step.entry.reply, step.entry.now, step.entry.io);
    } else {
      StepSpares(w, step, x);
      SparedUnsettled(h, h', x);
    }
  }

  lemma SparedUnsettled(h: Hub, h': Hub, x: CallId)
    requires Spared(h, h', x) && BackedIn(h, x) && Unsettled(h', x)
    ensures Unsettled(h, x)
  {
    hide Effective, Terminal, Backed, LeftAlone;
    LeftAloneTask(h.tasks, h'.tasks, h.calls, h'.calls, x);
  }

  lemma ReplyUnsettles(h: Hub, used: set<CallId>, agentId: string, id: CallId, reply: Reply, now: int, io: Io)
    requires Core(h, used) && id in h.entry.submits && Unsettled(SubmitReply(h, agentId, id, reply, now, io), id)
    ensures Unsettled(h, id) || (reply.Accepted? && Terminal(reply.snapshot.state))
  {
    hide LeasesOk, EntryOk, DispatchOk, FlowOk, IdsUsed, Effective, AcceptOrRetain, StartWatcher, SubmitOk, OnlyTask, Terminal, RecordCall;
    SubmitIsReady(h, id, used);
    FinalStates(Unknown);
    if reply.Accepted? {
      var record := NewRecord(h.entry.submits[id].request, reply.snapshot, false);
      AcceptLeases(h, agentId, id, h.entry.submits[id], record, now, io);
    }
  }

  /** A call whose task is final although nobody handled it was accepted as finished. */
  lemma {:induction false} UnsettledWasAcceptedFinal(kinds: map<string, Pool>, limits: Limits, agentId: string, steps: seq<Step>, x: CallId)
      returns (n: nat)
    requires Registers(kinds) && Unsettled(Run(Begin(kinds, limits, agentId), steps).hub, x)
    ensures n < |steps| && AcceptsFinal(steps[n], x)
  {
    hide Enabled, Perform, Sound, Registers, Unsettled, AcceptsFinal, BackedIn;
    if steps == [] {
      BeginSettled(kinds, limits, agentId, x);
    } else {
      n := |steps| - 1;
      var w := Run(Begin(kinds, limits, agentId), steps[..n]);
      RunSound(kinds, limits, agentId, steps[..n]);
      RunBacked(kinds, limits, agentId, steps[..n], x);
      if Enabled(w, steps[n]) { StepUnsettles(w, steps[n], x); }
      if !AcceptsFinal(steps[n], x) { n := UnsettledWasAcceptedFinal(kinds, limits, agentId, steps[..n], x); }
    }
  }

  lemma BeginSettled(kinds: map<string, Pool>, limits: Limits, agentId: string, x: CallId)
    ensures !Unsettled(Begin(kinds, limits, agentId).hub, x)
  {
  }

  /** Only a call that was accepted as finished can be overtaken. */
  lemma OvertakenWasAcceptedFinal(kinds: map<string, Pool>, limits: Limits, agentId: string, steps: seq<Step>, next: Step, x: CallId)
      returns (n: nat)
    requires Registers(kinds) && Overtakes(Run(Begin(kinds, limits, agentId), steps), next, x)
    ensures n < |steps| && AcceptsFinal(steps[n], x)
  {
    hide Run, Registers, AttemptOf, AcceptsFinal, Effective, Terminal;
    n := UnsettledWasAcceptedFinal(kinds, limits, agentId, steps, x);
  }

  /** A call that was settled is never overtaken while the process lives: with `FirstTurnSettles`, when overtaking is impossible. */
  lemma SettledIsNeverOvertaken(kinds: map<string, Pool>, limits: Limits, agentId: string,
                                steps: seq<Step>, more: seq<Step>, next: Step, id: CallId)
    requires Registers(kinds) && forall i | 0 <= i < |more| :: !more[i].RestartStep?
    requires !Run(Begin(kinds, limits, agentId), steps).hub.closed && id in Run(Begin(kinds, limits, agentId), steps).hub.calls.handled
    ensures !Overtakes(Run(Begin(kinds, limits, agentId), steps + more), next, id)
  {
    hide Run, Registers, AttemptOf;
    HandledRecordsAreFinal(kinds, limits, agentId, steps, more, id);
  }
}
