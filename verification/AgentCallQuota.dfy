/**
 Quota in whole runs of the AgentCall service: only an admitted submission or blocking call raises a
 count, by one and within the limit, and no step ever meets a lost or forged handle.
 */
module AgentCallQuota {
  import opened Common
  import opened SessionTaskQuota
  import opened AsyncTaskFacts
  import opened AsyncTaskService
  import opened AsyncTaskInvariant
  import opened AsyncTaskRuns
  import opened AgentCallService
  import opened AgentCallFlow
  import opened AgentCallTasks
  import opened AgentCallInvariant
  import opened AgentCallRuns
  import Memory = InMemoryTaskStore
  import Runs = AgentCallRuns

  // ---------------------------------------------------------------- operations that raise no count

  ghost predicate NoRise(q: Quota, q': Quota) {
    q'.limits == q.limits && forall key :: Active(q', key) <= Active(q, key)
  }

  lemma NoRiseTwice(q: Quota, p: Quota, r: Quota)
    requires NoRise(q, p) && NoRise(p, r)
    ensures NoRise(q, r)
  {
    hide Active;
    forall key ensures Active(r, key) <= Active(q, key) { assert Active(p, key) <= Active(q, key); }
  }

  lemma HandlesNoRise(q: Quota, lease: Lease)
    ensures NoRise(q, q) && NoRise(q, Release(q, lease).0) && NoRise(q, Transfer(q, lease).0)
  {
  }

  lemma ReleaseNoRise(s: Service, id: TaskId)
    ensures NoRise(s.quota, ReleaseQuota(s, id).0.quota)
  {
    hide NoRise, Release;
    HandlesNoRise(s.quota, if id in s.leases then s.leases[id] else Lease(0, QuotaKey("", A2A), 0));
  }

  lemma NotifySameQuota(s: Service, id: TaskId)
    ensures NotifyTerminal(s, id).quota == s.quota && NotifyInputRequired(s, id).quota == s.quota
  {
  }

  lemma AfterNoRise(s: Service, t: Task, next: Task)
    ensures NoRise(s.quota, AfterAccepted(s, t, next).0.quota)
  {
    hide NoRise, ReleaseQuota, NotifyTerminal, NotifyInputRequired, Terminal;
    var cleared := s.(overlay := s.overlay - {t.taskId}, overlayBySource := s.overlayBySource - {t.source},
                      overlayReference := s.overlayReference - {t.taskId});
    var told :=
      if next.state != InputRequired then cleared.(inputNotified := cleared.inputNotified - {t.taskId})
      else if t.state != InputRequired || next.taskId !in cleared.inputNotified then NotifyInputRequired(cleared, t.taskId)
      else cleared;
    NotifySameQuota(cleared, t.taskId);
    ReleaseNoRise(told, t.taskId);
    NotifySameQuota(ReleaseQuota(told, t.taskId).0, t.taskId);
    HandlesNoRise(s.quota, Lease(0, QuotaKey("", A2A), 0));
  }

  lemma ReplaceNoRise(s: Service, t: Task, u: Update, reference: Option<Reference>, now: int, io: Io)
    ensures NoRise(s.quota, ReplaceAccepted(s, t, u, reference, now, io).0.quota)
  {
    hide NoRise, AfterAccepted, WriteAccepted, NextTask;
    HandlesNoRise(s.quota, Lease(0, QuotaKey("", A2A), 0));
    if u.payload.BadPayload? { return; }
    var next := NextTask(t, u, if u.payload.KeepPayload? then t.payload else u.payload.payload, now);
    var ref := if reference.Some? then reference
               else if t.taskId in s.overlayReference then Some(s.overlayReference[t.taskId]) else None;
    if WriteAccepted(s, t, next, ref, io).Ok? { AfterNoRise(s.(store := WriteAccepted(s, t, next, ref, io).value), t, next); }
  }

  lemma UpdatesNoRise(s: Service, sessionId: string, id: TaskId, u: Update, reference: Option<Reference>, message: string, now: int, io: Io)
    ensures NoRise(s.quota, Accept(s, sessionId, id, u, reference, now, io).0.quota)
    ensures NoRise(s.quota, UpdateAccepted(s, sessionId, id, u, reference, now, io).0.quota)
    ensures NoRise(s.quota, RejectBeforeAcceptance(s, sessionId, id, message, now, io).0.quota)
  {
    hide NoRise, ReplaceAccepted, RequireTask, ReleaseQuota, Memory.Replace, Terminal;
    HandlesNoRise(s.quota, Lease(0, QuotaKey("", A2A), 0));
    if RequireTask(s, sessionId, id, io.goodReads > 0).Ok? {
      var t := RequireTask(s, sessionId, id, io.goodReads > 0).value;
      ReplaceNoRise(s, t, u, reference, now, io);
      var rejected := t.(state := Rejected, statusMessage := Some(message), updatedAt := Instant(now));
      ReleaseNoRise(s.(store := Memory.Replace(s.store, t, rejected, None).0), id);
    }
  }

  lemma RetainNoRise(s: Service, t: Task, lease: Option<Lease>, reference: Option<Reference>)
    ensures NoRise(s.quota, RetainTask(s, t, lease, reference).0.quota)
  {
    hide NoRise, Transfer;
    HandlesNoRise(s.quota, if lease.Some? then lease.value else Lease(0, QuotaKey("", A2A), 0));
  }

  lemma RetainUncertainNoRise(s: Service, id: TaskId, r: Request, message: Option<string>, known: Option<Task>,
                              lease: Option<Lease>, reference: Option<Reference>, now: int, io: Io)
    ensures NoRise(s.quota, RetainUncertain(s, id, r, message, known, lease, reference, now, io).0.quota)
  {
    hide NoRise, RetainTask, RetainVerdict;
    HandlesNoRise(s.quota, Lease(0, QuotaKey("", A2A), 0));
    if RetainVerdict(s, id, r, message, known, lease, now, io).Ok? {
      RetainNoRise(s, RetainVerdict(s, id, r, message, known, lease, now, io).value, lease, reference);
    }
  }

  lemma AdoptNoRise(s: Service, id: TaskId, r: Request, message: Option<string>, lease: Lease, reference: Option<Reference>, now: int, io: Io)
    ensures NoRise(s.quota, Adopt(s, id, r, message, lease, reference, now, io).0.quota)
  {
    hide NoRise, AdoptInsert, FailRetained, FindAdopted, NewTask, Release;
    HandlesNoRise(s.quota, lease);
    if r.kind in s.kinds && r.payload.Some? {
      var t := NewTask(id, r, s.kinds[r.kind], r.payload.value, Unknown, now, message);
      AdoptInsertNoRise(s, t, lease, reference, io);
      if FindAdopted(s, t, io).Err? { FailNoRise(s, t, lease, reference, FindAdopted(s, t, io).error); }
    }
  }

  lemma FailNoRise(s: Service, t: Task, lease: Lease, reference: Option<Reference>, cause: TaskError)
    ensures NoRise(s.quota, FailRetained(s, t, lease, reference, cause).0.quota)
  {
    hide NoRise, RetainTask;
    RetainNoRise(s, t, Some(lease), reference);
  }

  lemma AdoptInsertNoRise(s: Service, t: Task, lease: Lease, reference: Option<Reference>, io: Io)
    ensures NoRise(s.quota, AdoptInsert(s, t, lease, reference, io).0.quota)
  {
    hide NoRise, FailRetained, Memory.Insert, Release, Transfer;
    HandlesNoRise(s.quota, lease);
    FailNoRise(s, t, lease, reference, UNREADABLE);
    if Memory.Insert(s.store, t, reference).1.Err? {
      FailNoRise(s, t, lease, reference, StoreFailed(Memory.Insert(s.store, t, reference).1.error));
    }
  }

  lemma AcceptOrRetainNoRise(s: Service, agentId: string, id: CallId, sub: Submit, record: Record, now: int, io: Io)
    ensures NoRise(s.quota, AcceptOrRetain(s, agentId, id, sub, record, now, io).0.quota)
  {
    hide NoRise, Accept, RetainUncertain;
    var reference := Some(AcceptedReference(agentId, id, record));
    UpdatesNoRise(s, record.source.sessionId, id, UpdateOf(record), reference, "", now, io);
    var s' := Accept(s, record.source.sessionId, id, UpdateOf(record), reference, now, io).0;
    RetainUncertainNoRise(s', id, TaskRequest(sub.request, record.artifacts, record.questions), None, Some(sub.task), None, reference, now, io);
    NoRiseTwice(s.quota, s'.quota,
      RetainUncertain(s', id, TaskRequest(sub.request, record.artifacts, record.questions), None, Some(sub.task), None, reference, now, io).0.quota);
  }

  // ---------------------------------------------------------------- steps that raise no count

  lemma SubmitReplyNoRise(h: Hub, agentId: string, id: CallId, reply: Reply, now: int, io: Io)
    requires id in h.entry.submits
    ensures NoRise(h.tasks.quota, SubmitReply(h, agentId, id, reply, now, io).tasks.quota)
  {
    hide NoRise, AcceptOrRetain, NewRecord, StartWatcher, RecordCall;
    HandlesNoRise(h.tasks.quota, Lease(0, QuotaKey("", A2A), 0));
    if reply.Accepted? {
      AcceptOrRetainNoRise(h.tasks, agentId, id, h.entry.submits[id], NewRecord(h.entry.submits[id].request, reply.snapshot, false), now, io);
    }
  }

  lemma SubmitFailNoRise(h: Hub, agentId: string, id: CallId, text: string, readable: bool, now: int, io: Io)
    requires id in h.entry.submits && h.entry.submits[id].phase.Failing?
    ensures NoRise(h.tasks.quota, SubmitFail(h, agentId, id, text, readable, now, io).tasks.quota)
  {
    hide NoRise, Accept, RejectBeforeAcceptance, Get, PayloadOf, UncertainReference;
    HandlesNoRise(h.tasks.quota, Lease(0, QuotaKey("", A2A), 0));
    var sub := h.entry.submits[id];
    var u := Update(Unknown, NewPayload(PayloadOf("[]", None)), None);
    UpdatesNoRise(h.tasks, sub.request.source.sessionId, id, u, Some(UncertainReference(agentId, id, sub.request)), text, now, io);
    UpdatesNoRise(h.tasks, sub.request.source.sessionId, id, u, None, text, now, io);
  }

  lemma InvokeEndsNoRise(h: Hub, agentId: string, id: CallId, now: int, io: Io)
    requires id in h.entry.invokes
    ensures h.entry.invokes[id].phase.Failing? ==> NoRise(h.tasks.quota, InvokeFail(h, agentId, id, now, io).tasks.quota)
    ensures NoRise(h.tasks.quota, InvokeDone(h, id).tasks.quota)
  {
    hide NoRise, Adopt, Release, EmptyRequest, UncertainReference, EndInvoke;
    var inv := h.entry.invokes[id];
    HandlesNoRise(h.tasks.quota, inv.lease);
    var reference := Some(UncertainReference(agentId, id, inv.request));
    AdoptNoRise(h.tasks, id, EmptyRequest(inv.request), None, inv.lease, reference, now, io);
    var s' := Adopt(h.tasks, id, EmptyRequest(inv.request), None, inv.lease, reference, now, io).0;
    HandlesNoRise(s'.quota, inv.lease);
    NoRiseTwice(h.tasks.quota, s'.quota, Release(s'.quota, inv.lease).0);
  }

  lemma ApplyNoRise(s: Service, c: Calls, id: CallId, snapshot: Snapshot, now: int, io: Io)
    requires id in c.records
    ensures NoRise(s.quota, ApplyOnce(s, c, id, snapshot, now, io).0.quota)
  {
    hide NoRise, UpdateAccepted, Updated, UpdateOf;
    HandlesNoRise(s.quota, Lease(0, QuotaKey("", A2A), 0));
    var updated := Updated(c.records[id], snapshot);
    UpdatesNoRise(s, updated.source.sessionId, id, UpdateOf(updated), None, "", now, io);
  }

  // ---------------------------------------------------------------- counts

  /** Steps that ask for a new slot, or rebuild the slots after a restart. */
  predicate Admits(step: Runs.Step) {
    step.RestartStep? || (step.OnEntry? && (step.entry.SubmitStep? || step.entry.InvokeStep?))
  }

  lemma OthersNoRise(w: Runs.System, step: Runs.Step)
    requires Runs.Enabled(w, step) && !Admits(step)
    ensures NoRise(w.hub.tasks.quota, Runs.Perform(w, step).hub.tasks.quota)
  {
    hide NoRise, SubmitReply, InvokeReply, SubmitFail, InvokeFail, InvokeDone, ApplyOnce, AttemptOf, CancelHub, ContinueHub, WatchHub,
         CancelEnabled, ContinueEnabled, WatchEnabled;
    HandlesNoRise(w.hub.tasks.quota, Lease(0, QuotaKey("", A2A), 0));
    if AttemptOf(w, step).Some? {
      var a := AttemptOf(w, step).value;
      AttemptHub(w, step);
      ApplyNoRise(w.hub.tasks, w.hub.calls, a.id, a.snapshot, a.now, a.io);
    } else {
      match step
      case OnEntry(id, entry) => EntryNoRise(w, id, entry);
      case OnCancel(_, _) => OperationSameTasks(w, step);
      case OnContinue(_, _) => OperationSameTasks(w, step);
      case OnWatch(_, _) => OperationSameTasks(w, step);
      case _ => OutsideSameTasks(w, step);
    }
  }

  lemma EntryNoRise(w: Runs.System, id: CallId, entry: EntryStep)
    requires EntryEnabled(w, id, entry) && !entry.SubmitStep? && !entry.InvokeStep?
    ensures NoRise(w.hub.tasks.quota, EntryHub(w, id, entry).tasks.quota)
  {
    hide NoRise, SubmitReply, SubmitFail, InvokeFail, InvokeDone, StartWatcher, RecordCall, NewRecord;
    HandlesNoRise(w.hub.tasks.quota, Lease(0, QuotaKey("", A2A), 0));
    match entry
    case CapabilityStep(_) =>
    case ReplyStep(reply, now, io) =>
      if id in w.hub.entry.submits { SubmitReplyNoRise(w.hub, w.agentId, id, reply, now, io); }
    case FailStep(text, readable, now, io) =>
      if id in w.hub.entry.submits { SubmitFailNoRise(w.hub, w.agentId, id, text, readable, now, io); }
      else { InvokeEndsNoRise(w.hub, w.agentId, id, now, io); }
    case DoneStep => InvokeEndsNoRise(w.hub, w.agentId, id, 0, Io(0, false));
  }

  lemma OperationSameTasks(w: Runs.System, step: Runs.Step)
    requires Runs.Enabled(w, step) && (step.OnCancel? || step.OnContinue? || step.OnWatch?) && AttemptOf(w, step).None?
    ensures Runs.Perform(w, step).hub.tasks == w.hub.tasks
  {
    hide StartWatcher, EndWatcher, SetWatchPhase, AbortWatcher, EndCancel, SetCancelPhase, EndContinue, SetContinuePhase, CancelTurn,
         EnterContinuation, WatchError, WatchEvent, WatchAttempt, ContinueTurn, CancelAttempt, ContinueAttempt, ApplyOnce;
    match step
    case OnContinue(op, ContinueTurnStep(callerAborted)) => ContinueTurnWatchers(w.hub, op, callerAborted);
    case OnWatch(op, WatchEventStep(event, text)) => WatchEventFlow(w.hub, op, event, text);
    case OnWatch(op, WatchGiveUpStep(text)) => WatchErrorFlow(w.hub, op, text);
    case _ =>
  }

  lemma OutsideSameTasks(w: Runs.System, step: Runs.Step)
    requires Runs.Enabled(w, step) && (step.CancelCallStep? || step.ContinueCallStep? || step.AbortStep? || step.CloseStep?)
    ensures Runs.Perform(w, step).hub.tasks == w.hub.tasks
  {
    hide Get, StartCancel, StartContinue;
  }

  /** The count of one key after a step, against the one before. */
  ghost predicate WithinLimit(q: Quota, q': Quota, key: QuotaKey) {
    && q'.limits == q.limits
    && (Active(q', key) > Active(q, key) ==> Active(q', key) == Active(q, key) + 1 <= LimitOf(q.limits, key.pool))
  }

  lemma AcquireWithin(q: Quota, sessionId: string, pool: Pool, key: QuotaKey)
    ensures WithinLimit(q, Acquire(q, sessionId, pool).0, key) && WithinLimit(q, q, key)
  {
  }

  lemma InvokeWithin(h: Hub, r: CallRequest, id: CallId, readable: bool, key: QuotaKey)
    ensures WithinLimit(h.tasks.quota, InvokeBlocking(h, r, id, readable).tasks.quota, key)
  {
    hide Acquire, GetBySource, WithinLimit;
    AcquireWithin(h.tasks.quota, r.source.sessionId, A2A, key);
  }

  lemma SubmitWithin(h: Hub, used: set<CallId>, r: CallRequest, id: CallId, now: int, io: Io, key: QuotaKey)
    requires Core(h, used) && id !in used
    ensures WithinLimit(h.tasks.quota, SubmitAsync(h, r, id, now, io).tasks.quota, key)
  {
    hide Core, Reserve, EmptyRequest, Effective, Active, LimitOf;
    Unused(h, used, id);
    GoodTasks(h, used);
    AdmissionRespectsLimit(h.tasks, HeldBy(h.entry.invokes), EmptyRequest(r), id, now, io, key);
    SubmitQuota(h, r, id, now, io);
    ReserveSameLimits(h.tasks, EmptyRequest(r), id, now, io);
  }

  lemma ReserveSameLimits(s: Service, r: Request, id: TaskId, now: int, io: Io)
    ensures Reserve(s, r, id, now, io).0.quota.limits == s.quota.limits
  {
    hide Memory.Insert, Memory.Get, DuplicateResult, GetBySource, NewTask, Blank, BlankRequest, Active;
    forall q: Quota, lease: Lease ensures Release(q, lease).0.limits == q.limits && Transfer(q, lease).0.limits == q.limits { HandlesNoRise(q, lease); }
    hide Release, Transfer;
  }

  lemma SubmitQuota(h: Hub, r: CallRequest, id: CallId, now: int, io: Io)
    ensures SubmitAsync(h, r, id, now, io).tasks == if h.closed then h.tasks else Reserve(h.tasks, EmptyRequest(r), id, now, io).0
  {
    hide Reserve, EmptyRequest;
  }

  /**
   In every run, whatever the next step is: a count grows only when a submission or a blocking call is
   admitted, then by one, and never above its limit. A restart alone may rebuild more.
   */
  lemma CountsStayWithinLimits(kinds: map<string, Pool>, limits: Limits, agentId: string, steps: seq<Runs.Step>, step: Runs.Step, key: QuotaKey)
    requires Registers(kinds) && !step.RestartStep?
    ensures var w := Runs.Run(Runs.Begin(kinds, limits, agentId), steps);
            var q, q' := w.hub.tasks.quota, Runs.Apply(w, step).hub.tasks.quota;
            && (Active(q', key) > Active(q, key) ==> Active(q', key) == Active(q, key) + 1 <= LimitOf(q.limits, key.pool))
            && (!Admits(step) ==> Active(q', key) <= Active(q, key))
  {
    hide Runs.Run, Core, Runs.Enabled, EntryHub, SubmitAsync, InvokeBlocking, Active, LimitOf;
    var w := Runs.Run(Runs.Begin(kinds, limits, agentId), steps);
    Runs.RunSound(kinds, limits, agentId, steps);
    if Runs.Enabled(w, step) {
      if !Admits(step) {
        OthersNoRise(w, step);
      } else {
        AdmissionWithin(w, step, key);
      }
    }
  }

  lemma AdmissionWithin(w: Runs.System, step: Runs.Step, key: QuotaKey)
    requires Runs.Sound(w) && Runs.Enabled(w, step) && Admits(step) && !step.RestartStep?
    ensures WithinLimit(w.hub.tasks.quota, Runs.Perform(w, step).hub.tasks.quota, key)
  {
    hide Core, SubmitAsync, InvokeBlocking, WithinLimit;
    match step
    case OnEntry(id, SubmitStep(r, now, io)) => SubmitWithin(w.hub, w.used, r, id, now, io, key);
    case OnEntry(id, InvokeStep(r, readable)) => InvokeWithin(w.hub, r, id, readable, key);
  }

  /** Until the first restart no count is ever above its limit. */
  lemma {:induction false} NeverAboveLimit(kinds: map<string, Pool>, limits: Limits, agentId: string, steps: seq<Runs.Step>, key: QuotaKey)
    requires Registers(kinds) && forall i | 0 <= i < |steps| :: !steps[i].RestartStep?
    ensures var q := Runs.Run(Runs.Begin(kinds, limits, agentId), steps).hub.tasks.quota;
            q.limits == limits && Active(q, key) <= LimitOf(limits, key.pool)
  {
    hide Core, Runs.Enabled, Runs.Perform, LimitOf, Registers;
    if steps != [] {
      var n := |steps| - 1;
      var w := Runs.Run(Runs.Begin(kinds, limits, agentId), steps[..n]);
      NeverAboveLimit(kinds, limits, agentId, steps[..n], key);
      Runs.RunSound(kinds, limits, agentId, steps[..n]);
      if Runs.Enabled(w, steps[n]) {
        if Admits(steps[n]) { AdmissionWithin(w, steps[n], key); } else { OthersNoRise(w, steps[n]); }
      }
    }
  }

  // ---------------------------------------------------------------- errors

  /** `e` is what a release of the handle would raise. */
  predicate ReleaseRaises(q: Quota, lease: Lease, e: TaskError) {
    Release(q, lease).1.Err? && e == QuotaFailed(Release(q, lease).1.error)
  }

  /** The step meets the error `e` in a call of the task or quota service. */
  ghost predicate Raises(w: Runs.System, step: Runs.Step, e: TaskError) {
    Runs.Enabled(w, step) &&
    match step
    case OnEntry(id, SubmitStep(r, now, io)) =>
      !w.hub.closed && (Reserve(w.hub.tasks, EmptyRequest(r), id, now, io).1 == Err(e) || DropRaises(w.hub.tasks.quota, r.source.sessionId, e))
    case OnEntry(id, InvokeStep(r, readable)) => !w.hub.closed && InvokeRaises(w.hub, r, readable, e)
    case OnEntry(id, ReplyStep(Accepted(snapshot), now, io)) =>
      !w.hub.closed && id in w.hub.entry.submits && snapshot.remoteId !in w.hub.calls.callByRemote
      && AcceptOrRetain(w.hub.tasks, w.agentId, id, w.hub.entry.submits[id], NewRecord(w.hub.entry.submits[id].request, snapshot, false), now, io).1 == Some(e)
    case OnEntry(id, FailStep(text, readable, now, io)) =>
      if id in w.hub.entry.submits then SubmitFailRaises(w.hub, w.agentId, id, text, now, io, e) else InvokeFailRaises(w.hub, w.agentId, id, now, io, e)
    case OnEntry(id, DoneStep) => ReleaseRaises(w.hub.tasks.quota, w.hub.entry.invokes[id].lease, e)
    case RestartStep(limits, order, now, io) => Restart(w.hub.tasks.kinds, w.hub.tasks.store, limits, order, now, io) == Err(e)
    case _ =>
      AttemptOf(w, step).Some?
      && var a := AttemptOf(w, step).value;
         a.id in w.hub.calls.records && ApplyOnce(w.hub.tasks, w.hub.calls, a.id, a.snapshot, a.now, a.io).2 == Some(e)
  }

  /** What the release of a slot just acquired, whose error a failed reservation swallows, would raise. */
  predicate DropRaises(q: Quota, sessionId: string, e: TaskError) {
    exists pool: Pool :: var (q', lease) := AddSlot(q, QuotaKey(sessionId, pool)); ReleaseRaises(q', lease, e)
  }

  lemma DropNeverRaises(q: Quota, sessionId: string, e: TaskError)
    requires Consistent(q)
    ensures !DropRaises(q, sessionId, e)
  {
    hide Consistent, ReleaseRaises, AddSlot, LiveLeases;
    forall pool: Pool ensures var (q', lease) := AddSlot(q, QuotaKey(sessionId, pool)); !ReleaseRaises(q', lease, e) {
      AddSlotLeases(q, QuotaKey(sessionId, pool));
      ReleaseNeverRaises(AddSlot(q, QuotaKey(sessionId, pool)).0, AddSlot(q, QuotaKey(sessionId, pool)).1, e);
    }
  }

  lemma RestartRaisesNoLeak(w: Runs.System, limits: Limits, order: seq<TaskId>, now: int, io: Io, e: TaskError)
    requires Runs.Sound(w) && Runs.Enabled(w, Runs.RestartStep(limits, order, now, io))
    requires Restart(w.hub.tasks.kinds, w.hub.tasks.store, limits, order, now, io) == Err(e)
    ensures !LeakError(e)
  {
    hide Restart, ListsOnce, NonTerminalIds, OverlayOk, LeaseOk, NotifyOk, Consistent, LiveLeases, Memory.Indexed, Memory.RecoverNonTerminal, LeakError;
    RestartGood(w.hub.tasks.kinds, w.hub.tasks.store, limits, order, now, io);
  }

  predicate InvokeRaises(h: Hub, r: CallRequest, readable: bool, e: TaskError) {
    GetBySource(h.tasks, r.source, readable) == Ok(None) && r.source !in h.entry.blockingBySource
    && Acquire(h.tasks.quota, r.source.sessionId, A2A).1.Err? && e == QuotaFailed(Acquire(h.tasks.quota, r.source.sessionId, A2A).1.error)
  }

  predicate SubmitFailRaises(h: Hub, agentId: string, id: CallId, text: string, now: int, io: Io, e: TaskError)
    requires id in h.entry.submits
  {
    var sub := h.entry.submits[id];
    var reference := Some(UncertainReference(agentId, id, sub.request));
    var u := Update(Unknown, NewPayload(PayloadOf("[]", None)), None);
    || RejectBeforeAcceptance(h.tasks, sub.request.source.sessionId, id, text, now, io).1 == Err(e)
    || Accept(h.tasks, sub.request.source.sessionId, id, u, reference, now, io).1 == Err(e)
    || Accept(h.tasks, sub.request.source.sessionId, id, u, None, now, io).1 == Err(e)
  }

  predicate InvokeFailRaises(h: Hub, agentId: string, id: CallId, now: int, io: Io, e: TaskError)
    requires id in h.entry.invokes
  {
    var inv := h.entry.invokes[id];
    var adopted := Adopt(h.tasks, id, EmptyRequest(inv.request), None, inv.lease, Some(UncertainReference(agentId, id, inv.request)), now, io);
    || ReleaseRaises(h.tasks.quota, inv.lease, e)
    || adopted.1 == Err(e) || ReleaseRaises(adopted.0.quota, inv.lease, e)
  }

  lemma ReleaseNeverRaises(q: Quota, lease: Lease, e: TaskError)
    requires Consistent(q)
    ensures !ReleaseRaises(q, lease, e)
  {
    hide Consistent, Release;
    ReleaseLeases(q, lease);
  }

  lemma GoodIsConsistent(s: Service, held: set<Lease>)
    requires Good(s, held)
    ensures Consistent(s.quota)
  {
    hide Consistent, Memory.Indexed, OverlayOk, LeaseOk, NotifyOk;
  }

  lemma InvokeNeverRaises(h: Hub, r: CallRequest, readable: bool, e: TaskError)
    ensures !InvokeRaises(h, r, readable, e)
  {
    hide AddSlot, Memory.GetBySource, LimitOf, Active;
  }

  lemma SubmitFailRaisesNoLeak(h: Hub, held: set<Lease>, agentId: string, id: CallId, text: string, now: int, io: Io, e: TaskError)
    requires Good(h.tasks, held) && id in h.entry.submits && SubmitFailRaises(h, agentId, id, text, now, io, e)
    ensures !LeakError(e)
  {
    hide Good, Moves, Effective, Accept, RejectBeforeAcceptance, UncertainReference, PayloadOf, LeakError;
    var sub := h.entry.submits[id];
    var reference := Some(UncertainReference(agentId, id, sub.request));
    var u := Update(Unknown, NewPayload(PayloadOf("[]", None)), None);
    RejectGood(h.tasks, held, sub.request.source.sessionId, id, text, now, io);
    AcceptGood(h.tasks, held, sub.request.source.sessionId, id, u, reference, now, io);
    AcceptGood(h.tasks, held, sub.request.source.sessionId, id, u, None, now, io);
  }

  lemma InvokeFailRaisesNoLeak(h: Hub, used: set<CallId>, agentId: string, id: CallId, now: int, io: Io, e: TaskError)
    requires Core(h, used) && id in h.entry.invokes && InvokeFailRaises(h, agentId, id, now, io, e)
    ensures !LeakError(e)
  {
    hide Core, Good, Moves, Effective, Adopt, EmptyRequest, UncertainReference, LeakError, Release, ReleaseRaises, LiveLeases, Consistent;
    var inv := h.entry.invokes[id];
    var held := HeldBy(h.entry.invokes);
    var reference := Some(UncertainReference(agentId, id, inv.request));
    GoodTasks(h, used);
    InvokeIsReady(h, id, used);
    AdoptGood(h.tasks, held, id, EmptyRequest(inv.request), None, inv.lease, reference, now, io);
    var s' := Adopt(h.tasks, id, EmptyRequest(inv.request), None, inv.lease, reference, now, io).0;
    GoodIsConsistent(h.tasks, held);
    GoodIsConsistent(s', held * LiveLeases(s'.quota));
    ReleaseNeverRaises(h.tasks.quota, inv.lease, e);
    ReleaseNeverRaises(s'.quota, inv.lease, e);
  }

  lemma AttemptRaisesNoLeak(h: Hub, used: set<CallId>, a: Attempt)
    requires Core(h, used) && a.id in h.calls.records
    ensures var e := ApplyOnce(h.tasks, h.calls, a.id, a.snapshot, a.now, a.io).2; e.Some? ==> !LeakError(e.value)
  {
    hide Core, Good, Moves, Effective, UpdateAccepted, Updated, UpdateOf, LeakError, Terminal;
    GoodTasks(h, used);
    var updated := Updated(h.calls.records[a.id], a.snapshot);
    UpdateAcceptedGood(h.tasks, HeldBy(h.entry.invokes), updated.source.sessionId, a.id, UpdateOf(updated), None, a.now, a.io);
  }

  /** In every run, whatever the next step is, none of its calls raises the error of a lost or forged handle. */
  lemma NoLeakErrors(kinds: map<string, Pool>, limits: Limits, agentId: string, steps: seq<Runs.Step>, step: Runs.Step, e: TaskError)
    requires Registers(kinds) && Raises(Runs.Run(Runs.Begin(kinds, limits, agentId), steps), step, e)
    ensures !LeakError(e)
  {
    hide Runs.Run, Core, Registers, Reserve, EmptyRequest, AcceptOrRetain, NewRecord, SubmitFailRaises, InvokeFailRaises, ApplyOnce, ReleaseRaises,
         InvokeRaises, LeakError, AttemptOf, Good, Effective, Moves, SubmitOk, DropRaises, Restart, Consistent;
    var w := Runs.Run(Runs.Begin(kinds, limits, agentId), steps);
    Runs.RunSound(kinds, limits, agentId, steps);
    var h := w.hub;
    GoodTasks(h, w.used);
    match step
    case OnEntry(id, SubmitStep(r, now, io)) =>
      Unused(h, w.used, id);
      GoodIsConsistent(h.tasks, HeldBy(h.entry.invokes));
      DropNeverRaises(h.tasks.quota, r.source.sessionId, e);
      ReserveGood(h.tasks, HeldBy(h.entry.invokes), EmptyRequest(r), id, now, io);
    case OnEntry(id, InvokeStep(r, readable)) => InvokeNeverRaises(h, r, readable, e);
    case OnEntry(id, ReplyStep(reply, now, io)) => ReplyNeverRaises(w, id, reply, now, io, e);
    case OnEntry(id, FailStep(text, readable, now, io)) =>
      if id in h.entry.submits { SubmitFailRaisesNoLeak(h, HeldBy(h.entry.invokes), w.agentId, id, text, now, io, e); }
      else { InvokeFailRaisesNoLeak(h, w.used, w.agentId, id, now, io, e); }
    case OnEntry(id, DoneStep) =>
      GoodIsConsistent(h.tasks, HeldBy(h.entry.invokes));
      ReleaseNeverRaises(h.tasks.quota, h.entry.invokes[id].lease, e);
    case RestartStep(limits, order, now, io) => RestartRaisesNoLeak(w, limits, order, now, io, e);
    case _ => if AttemptOf(w, step).Some? { AttemptHub(w, step); AttemptRaisesNoLeak(h, w.used, AttemptOf(w, step).value); }
  }

  /** Bookkeeping of an accepted submission raises no error at all. */
  lemma ReplyNeverRaises(w: Runs.System, id: CallId, reply: Reply, now: int, io: Io, e: TaskError)
    requires Runs.Sound(w)
    ensures !Raises(w, OnEntry(id, ReplyStep(reply, now, io)), e)
  {
    hide LeasesOk, EntryOk, DispatchOk, FlowOk, IdsUsed, AcceptOrRetain, SubmitOk, OnlyTask, Effective, AcceptedAs;
    if reply.Accepted? && id in w.hub.entry.submits {
      SubmitIsReady(w.hub, id, w.used);
      AcceptLeases(w.hub, w.agentId, id, w.hub.entry.submits[id], NewRecord(w.hub.entry.submits[id].request, reply.snapshot, false), now, io);
    }
  }
}
