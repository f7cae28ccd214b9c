/** What the AgentCall service relies on the task service for. */
module AgentCallTasks {
  import opened Common
  import opened SessionTaskQuota
  import opened AsyncTaskFacts
  import opened AsyncTaskService
  import opened AsyncTaskInvariant
  import opened AgentCallService
  import Memory = InMemoryTaskStore

  /** At most one task changes, and what is durable stays durable. */
  ghost predicate OnlyTask(s: Service, s': Service, id: CallId) {
    && (Effective(s') == Effective(s) || (id in Effective(s') && Effective(s') == Effective(s)[id := Effective(s')[id]]))
    && s.store.bySource.Keys <= s'.store.bySource.Keys
    && s'.kinds == s.kinds
  }

  lemma MovesOnly(s: Service, s': Service, id: CallId, mode: Mode)
    requires Moves(s, s', id, mode)
    ensures OnlyTask(s, s', id)
  {
    hide Effective;
  }

  // ---------------------------------------------------------------- reserving

  /** The reserved task is durable under its source before the reservation is reported. */
  lemma ReservedFacts(s: Service, held: set<Lease>, r: Request, id: CallId, now: int, io: Io)
    requires Good(s, held) && id !in Effective(s)
    ensures var (s', result) := Reserve(s, r, id, now, io);
            result.Ok? && result.value.Reserved? ==>
              var t := result.value.task;
              && r.kind in s.kinds && r.payload.Some? && t == NewTask(id, r, s.kinds[r.kind], r.payload.value, Submitting, now, None)
              && Effective(s') == Effective(s)[id := t]
              && r.source !in s.store.bySource && r.source in s'.store.bySource
  {
    hide Good, Effective, Blank, GetBySource, ReserveAdmitted, AddSlot, BlankRequest;
    if !BlankRequest(r) && r.kind in s.kinds && r.payload.Some? && GetBySource(s, r.source, io.goodReads > 0) == Ok(None)
       && Acquire(s.quota, r.source.sessionId, s.kinds[r.kind]).1.Ok?
    {
      AdmittedFacts(s, held, r, r.payload.value, id, now, io);
    }
  }

  lemma AdmittedFacts(s: Service, held: set<Lease>, r: Request, payload: Payload, id: CallId, now: int, io: Io)
    requires Good(s, held) && id !in Effective(s) && r.kind in s.kinds
    ensures var (q, lease) := AddSlot(s.quota, QuotaKey(r.source.sessionId, s.kinds[r.kind]));
            var (s', result) := ReserveAdmitted(s.(quota := q), r, payload, id, now, io, lease);
            result.Ok? && result.value.Reserved? ==>
              var t := result.value.task;
              && t == NewTask(id, r, s.kinds[r.kind], payload, Submitting, now, None)
              && Effective(s') == Effective(s)[id := t]
              && r.source !in s.store.bySource && r.source in s'.store.bySource
  {
    hide Memory.Get, Transfer, Release, AddSlot, Blank, DuplicateResult, Good, ValidTask, Memory.Insert;
    var task := NewTask(id, r, s.kinds[r.kind], payload, Submitting, now, None);
    assert task.taskId == id && task.source == r.source;
    if Memory.Insert(s.store, task, None).1.Ok? {
      InsertedFacts(s, held, task);
      hide NewTask;
    }
  }

  lemma InsertedFacts(s: Service, held: set<Lease>, t: Task)
    requires Good(s, held) && t.taskId !in Effective(s) && Memory.Insert(s.store, t, None).1.Ok?
    ensures var (store', r) := Memory.Insert(s.store, t, None);
            && r == Ok(InsertResult(Inserted, t)) && store'.tasks + s.overlay == Effective(s)[t.taskId := t]
            && t.source !in s.store.bySource && t.source in store'.bySource
  {
    IndexedStore(s, held);
    EffectiveGains(s, t);
    hide Good, Memory.Insert, ValidTask, Memory.Indexed, Effective;
    InsertedTask(s.store, t, None);
    InsertedSource(s.store, t);
  }

  lemma EffectiveGains(s: Service, t: Task)
    requires t.taskId !in Effective(s)
    ensures s.store.tasks[t.taskId := t] + s.overlay == Effective(s)[t.taskId := t] && t.taskId !in s.store.tasks
  {
  }

  lemma IndexedStore(s: Service, held: set<Lease>)
    requires Good(s, held)
    ensures Memory.Indexed(s.store)
  {
  }

  lemma InsertedSource(store: Memory.Store, t: Task)
    requires t.taskId !in store.tasks
    ensures var (store', r) := Memory.Insert(store, t, None);
            r.Ok? && r.value.status == Inserted ==> t.source !in store.bySource && t.source in store'.bySource
  {
    hide ValidTask;
  }

  // ---------------------------------------------------------------- accepting

  /** The task an asynchronous submission reserved is still waiting for acceptance. */
  ghost predicate SubmitOk(s: Service, id: CallId, sub: Submit) {
    && id in Effective(s) && Effective(s)[id] == sub.task
    && sub.task.taskId == id && sub.task.state == Submitting && sub.task.source == sub.request.source
    && sub.task.kind == KIND && sub.task.toolName == sub.request.toolName
    && KIND in s.kinds && s.kinds[KIND] == sub.task.pool
  }

  /** The task a record was accepted as, or the unknown fallback in the overlay. */
  ghost predicate AcceptedAs(t: Task, record: Record) {
    && t.source == record.source
    && (t.state == Unknown
        || (t.state == record.state && t.payload == PayloadOf(record.artifacts, record.questions)
            && (record.message.Some? ==> t.statusMessage == record.message)))
  }

  /** An accepted remote task is always recorded locally: durably, or in the overlay when the store fails. */
  lemma AcceptOrRetainOk(s: Service, held: set<Lease>, agentId: string, id: CallId, sub: Submit, record: Record, now: int, io: Io)
    requires Good(s, held) && SubmitOk(s, id, sub) && record.source == sub.request.source
    ensures var (s', e) := AcceptOrRetain(s, agentId, id, sub, record, now, io);
            && e.None? && Good(s', held) && OnlyTask(s, s', id)
            && id in Effective(s') && AcceptedAs(Effective(s')[id], record)
  {
    var reference := Some(AcceptedReference(agentId, id, record));
    var u := UpdateOf(record);
    hide Good, Moves, Effective, Accept, RetainUncertain, AcceptedReference, PayloadOf;
    AcceptGood(s, held, record.source.sessionId, id, u, reference, now, io);
    AcceptedTask(s, held, id, sub, u, reference, now, io);
    match Accept(s, record.source.sessionId, id, u, reference, now, io)
    case (s', Ok(_)) => MovesOnly(s, s', id, Announcing); hide OnlyTask;
    case (s', Err(e)) =>
      var r := TaskRequest(sub.request, record.artifacts, record.questions);
      RetainSubmitted(s, held, id, sub, r, reference, now, io);
  }

  lemma AcceptedTask(s: Service, held: set<Lease>, id: CallId, sub: Submit, u: Update, reference: Option<Reference>, now: int, io: Io)
    requires Good(s, held) && SubmitOk(s, id, sub) && u.state != Submitting && u.payload.NewPayload?
    ensures var (s', r) := Accept(s, sub.request.source.sessionId, id, u, reference, now, io);
            if r.Ok? then r.value == NextTask(sub.task, u, u.payload.payload, now)
            else r.error.Persistence? && s' == s
  {
    hide Good, Effective, RequireTask, ReplaceAccepted, NextTask, ValidTask;
    AcceptGood(s, held, sub.request.source.sessionId, id, u, reference, now, io);
    if RequireTask(s, sub.request.source.sessionId, id, io.goodReads > 0).Ok? {
      TaskKnown(s, held, sub.request.source.sessionId, id, io.goodReads > 0);
      ReplaceResult(s, sub.task, u, reference, now, io);
      ReplaceAcceptedFault(s, sub.task, u, reference, now, io);
    }
  }

  /** A replace either stores exactly the next task, or the store failed, or a handle was lost. */
  lemma ReplaceResult(s: Service, t: Task, u: Update, reference: Option<Reference>, now: int, io: Io)
    requires u.payload.NewPayload?
    ensures var r := ReplaceAccepted(s, t, u, reference, now, io).1;
            if r.Ok? then r.value == NextTask(t, u, u.payload.payload, now) else r.error.Persistence? || LeakError(r.error)
  {
    hide WriteAccepted, NextTask, Release, NotifyInputRequired, NotifyTerminal, Terminal;
  }

  lemma RetainSubmitted(s: Service, held: set<Lease>, id: CallId, sub: Submit, r: Request, reference: Option<Reference>, now: int, io: Io)
    requires Good(s, held) && SubmitOk(s, id, sub)
    requires r.source == sub.request.source && r.kind == KIND && r.toolName == sub.request.toolName && r.payload.Some?
    ensures var (s', result) := RetainUncertain(s, id, r, None, Some(sub.task), None, reference, now, io);
            && result.Ok? && Good(s', held) && OnlyTask(s, s', id)
            && id in Effective(s') && Effective(s')[id].state == Unknown && Effective(s')[id].source == r.source
  {
    hide Good, Moves, RetainVerdict, RetainTask, Effective;
    SubmittedIsDurable(s, held, id, sub);
    RetainUncertainGood(s, held, id, r, None, Some(sub.task), None, reference, now, io);
    var (s', result) := RetainUncertain(s, id, r, None, Some(sub.task), None, reference, now, io);
    MovesOnly(s, s', id, Quiet);
    RetainAllowed(s, held, id, sub, r, now, io);
    RetainEffect(s, RetainVerdict(s, id, r, None, Some(sub.task), None, now, io).value, reference);
  }

  lemma SubmittedIsDurable(s: Service, held: set<Lease>, id: CallId, sub: Submit)
    requires Good(s, held) && SubmitOk(s, id, sub)
    ensures id in s.store.tasks && s.store.tasks[id] == sub.task && id !in s.overlay && ValidTask(sub.task)
  {
    EffectiveTaskOk(s, held, id);
    SubmittingIsDurable(s, held, sub.task);
    hide Good, ValidTask;
  }

  lemma RetainAllowed(s: Service, held: set<Lease>, id: CallId, sub: Submit, r: Request, now: int, io: Io)
    requires Good(s, held) && SubmitOk(s, id, sub)
    requires r.source == sub.request.source && r.kind == KIND && r.toolName == sub.request.toolName && r.payload.Some?
    ensures var v := RetainVerdict(s, id, r, None, Some(sub.task), None, now, io);
            v.Ok? && v.value.taskId == id && v.value.state == Unknown && v.value.source == r.source && id in s.leases
  {
    hide Good, Effective, RetainVerdict, Blank, BlankRequest, RetainExisting, RetainDurable, KnownMatches, RetainMismatch, ValidTask;
    SubmittedIsDurable(s, held, id, sub);
    TasksWithoutLease(s, held, id);
    RetainChecks(s, id, sub, r, io);
    RetainPasses(s, id, sub.task, r, now, io);
  }

  lemma RetainPasses(s: Service, id: CallId, known: Task, r: Request, now: int, io: Io)
    requires r.kind in s.kinds && r.payload.Some? && known.taskId == id && known.state == Submitting && id in s.leases
    requires !Blank(id) && !BlankRequest(r) && KnownMatches(Some(known), id, r)
    requires RetainExisting(s, id, r, Some(known), io) == Ok(Some(known))
    requires RetainDurable(s, id, r, Some(known), io) == Ok(Some(known))
    requires !RetainMismatch(Some(known), r, s.kinds[r.kind])
    ensures var v := RetainVerdict(s, id, r, None, Some(known), None, now, io);
            v.Ok? && v.value.taskId == id && v.value.state == Unknown && v.value.source == r.source
  {
    hide Blank, BlankRequest, RetainExisting, RetainDurable, KnownMatches, RetainMismatch;
  }

  lemma RetainChecks(s: Service, id: CallId, sub: Submit, r: Request, io: Io)
    requires SubmitOk(s, id, sub) && ValidTask(sub.task) && id !in s.overlay
    requires r.source == sub.request.source && r.kind == KIND && r.toolName == sub.request.toolName
    ensures !Blank(id) && !BlankRequest(r) && KnownMatches(Some(sub.task), id, r)
    ensures RetainExisting(s, id, r, Some(sub.task), io) == Ok(Some(sub.task))
    ensures RetainDurable(s, id, r, Some(sub.task), io) == Ok(Some(sub.task))
    ensures !RetainMismatch(Some(sub.task), r, s.kinds[KIND])
  {
    hide Effective, Blank, Memory.Get;
  }

  lemma RetainEffect(s: Service, t: Task, reference: Option<Reference>)
    requires t.taskId in s.leases
    ensures var (s', e) := RetainTask(s, t, None, reference);
            e.None? && Effective(s') == Effective(s)[t.taskId := t]
  {
    assert s.store.tasks + s.overlay[t.taskId := t] == (s.store.tasks + s.overlay)[t.taskId := t];
  }
}
