/**
 The Async Tool Task service: durable task facts, an overlay of accepted tasks that could not be
 recorded, one quota lease for every live task, and the notifications it sends.

 Store faults are part of each call: `Io` says how many of the call's store reads succeed before
 one throws, and whether its store write succeeds. A failed read or write has no effect.
 */
module AsyncTaskService {
  import opened Common
  import opened SessionTaskQuota
  import opened AsyncTaskFacts
  import Memory = InMemoryTaskStore

  datatype Io = Io(goodReads: nat, write: bool)

  /** The outcome of `validatePayload` on an update: no payload given, accepted, or thrown. */
  datatype PayloadUpdate = KeepPayload | NewPayload(payload: Payload) | BadPayload

  datatype Update = Update(state: TaskState, payload: PayloadUpdate, statusMessage: Option<string>)

  /** A request names a task; `payload` is `None` when the kind's validation throws. */
  datatype Request = Request(source: Source, toolName: string, kind: string, payload: Option<Payload>)

  datatype Service = Service(
    kinds: map<string, Pool>,
    store: Memory.Store,
    quota: Quota,
    overlay: map<TaskId, Task>,
    overlayBySource: map<Source, TaskId>,
    overlayReference: map<TaskId, Reference>,
    leases: map<TaskId, Lease>,
    terminalNotified: set<TaskId>,
    inputNotified: set<TaskId>,
    terminalLog: seq<TaskId>,   // every terminal notification sent, in order
    inputLog: seq<TaskId>)      // every input-required notification sent, in order

  datatype TaskError =
    | BlankField | UnknownKind | InvalidPayload | PoolMismatch | SourceConflict | TaskExists | NotFound
    | LeaseMismatch | AdoptConflict | NotAwaitingAcceptance | NotAccepted | UnsupportedState
    | TerminalConflict | AlreadyAccepted | RetainConflict | NoLeaseToRetain
    | StoreFailed(cause: StoreError)
    | Persistence(original: TaskError)
    | NoQuotaLease
    | QuotaFailed(quotaError: QuotaError)

  datatype Reservation =
    | Reserved(task: Task) | DuplicateSource(task: Task) | TaskLimitReached(pool: Pool, maxActive: nat)

  datatype Adoption = Adopted(task: Task) | AlreadyAdopted(task: Task)

  const UNREADABLE := StoreFailed(Unavailable)

  // ---------------------------------------------------------------- reading

  /** What a caller sees: the overlay hides the durable row of the same task. */
  function Effective(s: Service): map<TaskId, Task> {
    s.store.tasks + s.overlay
  }

  function Get(s: Service, sessionId: string, id: TaskId, readable: bool): Result<Option<Task>, TaskError> {
    if id in s.overlay then
      Ok(if s.overlay[id].source.sessionId == sessionId then Some(s.overlay[id]) else None)
    else if !readable then Err(UNREADABLE)
    else Ok(Memory.Get(s.store, sessionId, id))
  }

  function GetBySource(s: Service, src: Source, readable: bool): Result<Option<Task>, TaskError> {
    if !ValidSource(src) then Err(BlankField)
    else if src in s.overlayBySource && s.overlayBySource[src] in s.overlay then
      Ok(Some(s.overlay[s.overlayBySource[src]]))
    else if !readable then Err(UNREADABLE)
    else Ok(Memory.GetBySource(s.store, src))
  }

  function RequireTask(s: Service, sessionId: string, id: TaskId, readable: bool): Result<Task, TaskError> {
    match Get(s, sessionId, id, readable)
    case Err(e) => Err(e)
    case Ok(None) => Err(NotFound)
    case Ok(Some(t)) => Ok(t)
  }

  // ---------------------------------------------------------------- leases and notifications

  function DropLease(s: Service, lease: Lease): Service {
    s.(quota := Release(s.quota, lease).0)
  }

  function ReleaseQuota(s: Service, id: TaskId): (Service, Option<TaskError>) {
    if id !in s.leases then (s, Some(NoQuotaLease))
    else
      var (q, r) := Release(s.quota, s.leases[id]);
      if r.Err? then (s.(quota := q), Some(QuotaFailed(r.error)))
      else (s.(quota := q, leases := s.leases - {id}), None)
  }

  function NotifyTerminal(s: Service, id: TaskId): Service {
    if id in s.terminalNotified then s
    else s.(terminalNotified := s.terminalNotified + {id}, terminalLog := s.terminalLog + [id])
  }

  function NotifyInputRequired(s: Service, id: TaskId): Service {
    if id in s.inputNotified then s
    else s.(inputNotified := s.inputNotified + {id}, inputLog := s.inputLog + [id])
  }

  // ---------------------------------------------------------------- reserve

  predicate BlankRequest(r: Request) {
    !ValidSource(r.source) || Blank(r.toolName)
  }

  function DuplicateResult(existing: Task, r: Request, payload: Payload): Result<Reservation, TaskError> {
    if existing.kind != r.kind || existing.toolName != r.toolName
       || (existing.state == Submitting && existing.payload != payload)
    then Err(SourceConflict)
    else Ok(DuplicateSource(existing))
  }

  function NewTask(id: TaskId, r: Request, pool: Pool, payload: Payload, state: TaskState, now: int, message: Option<string>): Task {
    Task(id, r.kind, pool, r.source, r.toolName, Instant(now), state, payload, Instant(now), message)
  }

  /** Everything after admission; `lease` is the handle the quota just gave out. */
  function ReserveAdmitted(s: Service, r: Request, payload: Payload, id: TaskId, now: int, io: Io, lease: Lease)
    : (Service, Result<Reservation, TaskError>)
    requires r.kind in s.kinds
  {
    var task := NewTask(id, r, s.kinds[r.kind], payload, Submitting, now, None);
    if Blank(id) then (DropLease(s, lease), Err(BlankField))
    else if io.goodReads < 3 then (DropLease(s, lease), Err(UNREADABLE))
    else if Memory.Get(s.store, r.source.sessionId, id).Some? then (DropLease(s, lease), Err(TaskExists))
    else if !io.write then (DropLease(s, lease), Err(UNREADABLE))
    else
      var (store, inserted) := Memory.Insert(s.store, task, None);
      match inserted
      case Err(e) => (DropLease(s, lease), Err(StoreFailed(e)))
      case Ok(InsertResult(Duplicate, t)) => (DropLease(s, lease), DuplicateResult(t, r, payload))
      case Ok(InsertResult(Inserted, t)) =>
        var (q, owned) := Transfer(s.quota, lease);
        if owned.Err? then (DropLease(s.(store := store), lease), Err(QuotaFailed(owned.error)))
        else (s.(store := store, quota := q, leases := s.leases[id := owned.value]), Ok(Reserved(t)))
  }

  function Reserve(s: Service, r: Request, id: TaskId, now: int, io: Io): (Service, Result<Reservation, TaskError>) {
    if BlankRequest(r) then (s, Err(BlankField))
    else if r.kind !in s.kinds then (s, Err(UnknownKind))
    else if r.payload.None? then (s, Err(InvalidPayload))
    else match GetBySource(s, r.source, io.goodReads > 0)
      case Err(e) => (s, Err(e))
      case Ok(Some(existing)) => (s, DuplicateResult(existing, r, r.payload.value))
      case Ok(None) =>
        var (q, admission) := Acquire(s.quota, r.source.sessionId, s.kinds[r.kind]);
        match admission
        case Err(e) => (s, Err(QuotaFailed(e)))
        case Ok(LimitReached(pool, max)) => (s, Ok(TaskLimitReached(pool, max)))
        case Ok(Acquired(lease)) => ReserveAdmitted(s.(quota := q), r, r.payload.value, id, now, io, lease)
  }

  // ---------------------------------------------------------------- adopt and retain

  /** Puts a task into the overlay, taking over the caller's lease unless the task has one. */
  function RetainTask(s: Service, t: Task, lease: Option<Lease>, ref: Option<Reference>): (Service, Option<TaskError>) {
    var (q, owned) :=
      if t.taskId in s.leases || lease.None? then (s.quota, Err(NotOwned)) else Transfer(s.quota, lease.value);
    if t.taskId !in s.leases && owned.Err? then (s, Some(QuotaFailed(owned.error)))
    else
      (s.(quota := q,
          leases := if t.taskId in s.leases then s.leases else s.leases[t.taskId := owned.value],
          overlay := s.overlay[t.taskId := t],
          overlayBySource := s.overlayBySource[t.source := t.taskId],
          overlayReference := if ref.None? then s.overlayReference else s.overlayReference[t.taskId := ref.value]),
       None)
  }

  function FailRetained(s: Service, t: Task, lease: Lease, ref: Option<Reference>, cause: TaskError)
    : (Service, Result<Adoption, TaskError>)
  {
    match RetainTask(s, t, Some(lease), ref)
    case (s', None) => (s', Err(Persistence(cause)))
    case (s', Some(e)) => (s', Err(e))
  }

  function FindAdopted(s: Service, t: Task, io: Io): Result<Option<Task>, TaskError> {
    match GetBySource(s, t.source, io.goodReads > 0)
    case Err(e) => Err(e)
    case Ok(Some(existing)) => Ok(Some(existing))
    case Ok(None) => Get(s, t.source.sessionId, t.taskId, io.goodReads > 1)
  }

  function AdoptInsert(s: Service, t: Task, lease: Lease, ref: Option<Reference>, io: Io)
    : (Service, Result<Adoption, TaskError>)
  {
    if !io.write then FailRetained(s, t, lease, ref, UNREADABLE)
    else
      var (store, inserted) := Memory.Insert(s.store, t, ref);
      match inserted
      case Err(e) => FailRetained(s, t, lease, ref, StoreFailed(e))
      case Ok(InsertResult(Duplicate, existing)) => (DropLease(s, lease), Ok(AlreadyAdopted(existing)))
      case Ok(InsertResult(Inserted, stored)) =>
        var (q, owned) := Transfer(s.quota, lease);
        if owned.Err? then (s.(store := store), Err(QuotaFailed(owned.error)))
        else (s.(store := store, quota := q, leases := s.leases[t.taskId := owned.value]), Ok(Adopted(stored)))
  }

  function Adopt(s: Service, id: TaskId, r: Request, message: Option<string>, lease: Lease, ref: Option<Reference>, now: int, io: Io)
    : (Service, Result<Adoption, TaskError>)
  {
    if Blank(id) || BlankRequest(r) then (s, Err(BlankField))
    else if r.kind !in s.kinds then (s, Err(UnknownKind))
    else if lease.key != QuotaKey(r.source.sessionId, s.kinds[r.kind]) then (s, Err(LeaseMismatch))
    else if r.payload.None? then (s, Err(InvalidPayload))
    else
      var t := NewTask(id, r, s.kinds[r.kind], r.payload.value, Unknown, now, message);
      match FindAdopted(s, t, io)
      case Err(e) => FailRetained(s, t, lease, ref, e)
      case Ok(Some(existing)) =>
        if existing.taskId != id || existing.source != r.source || existing.kind != r.kind
           || existing.toolName != r.toolName || existing.payload != t.payload
        then (s, Err(AdoptConflict))
        else (DropLease(s, lease), Ok(AlreadyAdopted(existing)))
      case Ok(None) => AdoptInsert(s, t, lease, ref, io)
  }

  predicate RetainMismatch(candidate: Option<Task>, r: Request, pool: Pool) {
    candidate.Some? &&
    var c := candidate.value;
    || c.source != r.source || c.pool != pool || c.kind != r.kind || c.toolName != r.toolName
    || (c.state != Submitting && c.state != Unknown)
  }

  predicate KnownMatches(known: Option<Task>, id: TaskId, r: Request) {
    known.Some? ==>
      var k := known.value;
      && k.taskId == id && k.source == r.source && k.toolName == r.toolName && k.kind == r.kind
      && k.state == Submitting
  }

  /** `uncertainByTaskId ?? knownTask ?? getBySource`. */
  function RetainExisting(s: Service, id: TaskId, r: Request, known: Option<Task>, io: Io): Result<Option<Task>, TaskError> {
    if id in s.overlay then Ok(Some(s.overlay[id]))
    else if known.Some? then Ok(known)
    else GetBySource(s, r.source, io.goodReads > 0)
  }

  /** `knownTask ?? store.get`. */
  function RetainDurable(s: Service, id: TaskId, r: Request, known: Option<Task>, io: Io): Result<Option<Task>, TaskError> {
    if known.Some? then Ok(known)
    else if io.goodReads < 2 then Err(UNREADABLE)
    else Ok(Memory.Get(s.store, r.source.sessionId, id))
  }

  /** The task a retain request would put into the overlay, or why it is refused. */
  function RetainVerdict(s: Service, id: TaskId, r: Request, message: Option<string>, known: Option<Task>,
                         lease: Option<Lease>, now: int, io: Io): Result<Task, TaskError>
  {
    if Blank(id) || BlankRequest(r) then Err(BlankField)
    else if r.kind !in s.kinds then Err(UnknownKind)
    else if lease.Some? && lease.value.key != QuotaKey(r.source.sessionId, s.kinds[r.kind]) then Err(LeaseMismatch)
    else if r.payload.None? then Err(InvalidPayload)
    else if !KnownMatches(known, id, r) then Err(RetainConflict)
    else
      var pool := s.kinds[r.kind];
      var existing, durable := RetainExisting(s, id, r, known, io), RetainDurable(s, id, r, known, io);
      if existing.Err? then Err(existing.error)
      else if existing.value.Some? && existing.value.value.taskId != id then Err(RetainConflict)
      else if durable.Err? then Err(durable.error)
      else if durable.value.Some? && durable.value.value.state != Submitting then Err(AlreadyAccepted)
      else if RetainMismatch(existing.value, r, pool) || RetainMismatch(durable.value, r, pool) then Err(RetainConflict)
      else if id !in s.leases && lease.None? then Err(NoLeaseToRetain)
      else
        var createdAt := if durable.value.Some? then durable.value.value.createdAt
                         else if existing.value.Some? then existing.value.value.createdAt else Instant(now);
        Ok(NewTask(id, r, pool, r.payload.value, Unknown, now, message).(createdAt := createdAt))
  }

  function RetainUncertain(s: Service, id: TaskId, r: Request, message: Option<string>, known: Option<Task>,
                           lease: Option<Lease>, ref: Option<Reference>, now: int, io: Io)
    : (Service, Result<Task, TaskError>)
  {
    match RetainVerdict(s, id, r, message, known, lease, now, io)
    case Err(e) => (s, Err(e))
    case Ok(t) =>
      match RetainTask(s, t, lease, ref)
      case (s', None) => (s', Ok(t))
      case (s', Some(e)) => (s', Err(e))
  }

  // ---------------------------------------------------------------- accept, update, reject

  function NextTask(t: Task, u: Update, payload: Payload, now: int): Task {
    t.(state := u.state, payload := payload, updatedAt := Instant(now),
       statusMessage := if u.statusMessage.None? then t.statusMessage else u.statusMessage)
  }

  /** The durable write of an accepted state: a first insert or a compare-and-replace. */
  function WriteAccepted(s: Service, t: Task, next: Task, ref: Option<Reference>, io: Io): Result<Memory.Store, StoreError> {
    if io.goodReads < 2 || !io.write then Err(Unavailable)
    else match Memory.Get(s.store, t.source.sessionId, t.taskId)
      case None =>
        var (store, r) := Memory.Insert(s.store, next, ref);
        if r.Err? then Err(r.error) else Ok(store)
      case Some(durable) =>
        var (store, r) := Memory.Replace(s.store, durable, next, ref);
        if r.Err? then Err(r.error) else Ok(store)
  }

  /** The bookkeeping after a successful write: overlay, notifications and quota. */
  function AfterAccepted(s: Service, t: Task, next: Task): (Service, Option<TaskError>) {
    var cleared := s.(overlay := s.overlay - {t.taskId},
                      overlayBySource := s.overlayBySource - {t.source},
                      overlayReference := s.overlayReference - {t.taskId});
    var told :=
      if next.state != InputRequired then cleared.(inputNotified := cleared.inputNotified - {t.taskId})
      else if t.state != InputRequired || next.taskId !in cleared.inputNotified then NotifyInputRequired(cleared, t.taskId)
      else cleared;
    if !Terminal(t.state) && Terminal(next.state) then
      var (released, e) := ReleaseQuota(told, t.taskId);
      if e.Some? then (released, e) else (NotifyTerminal(released, t.taskId), None)
    else (told, None)
  }

  function ReplaceAccepted(s: Service, t: Task, u: Update, ref: Option<Reference>, now: int, io: Io)
    : (Service, Result<Task, TaskError>)
  {
    if u.payload.BadPayload? then (s, Err(InvalidPayload))
    else
      var next := NextTask(t, u, if u.payload.KeepPayload? then t.payload else u.payload.payload, now);
      var reference := if ref.Some? then ref
                       else if t.taskId in s.overlayReference then Some(s.overlayReference[t.taskId]) else None;
      match WriteAccepted(s, t, next, reference, io)
      case Err(e) => (s, Err(Persistence(StoreFailed(e))))
      case Ok(store) =>
        match AfterAccepted(s.(store := store), t, next)
        case (s', None) => (s', Ok(next))
        case (s', Some(e)) => (s', Err(e))
  }

  function Accept(s: Service, sessionId: string, id: TaskId, u: Update, ref: Option<Reference>, now: int, io: Io)
    : (Service, Result<Task, TaskError>)
  {
    match RequireTask(s, sessionId, id, io.goodReads > 0)
    case Err(e) => (s, Err(Persistence(e)))
    case Ok(t) =>
      if t.state != Submitting then (s, Err(NotAwaitingAcceptance))
      else if u.state == Submitting then (s, Err(UnsupportedState))
      else ReplaceAccepted(s, t, u, ref, now, io)
  }

  function UpdateAccepted(s: Service, sessionId: string, id: TaskId, u: Update, ref: Option<Reference>, now: int, io: Io)
    : (Service, Result<Task, TaskError>)
  {
    match RequireTask(s, sessionId, id, io.goodReads > 0)
    case Err(e) => (s, Err(Persistence(e)))
    case Ok(t) =>
      if t.state == Submitting then (s, Err(NotAccepted))
      else if u.state == Submitting then (s, Err(UnsupportedState))
      else if u.payload.BadPayload? then (s, Err(InvalidPayload))
      else if Terminal(t.state) then
        var payload := if u.payload.KeepPayload? then t.payload else u.payload.payload;
        var message := if u.statusMessage.None? then t.statusMessage else u.statusMessage;
        (s, if t.state == u.state && t.statusMessage == message && t.payload == payload then Ok(t) else Err(TerminalConflict))
      else ReplaceAccepted(s, t, u, ref, now, io)
  }

  function RejectBeforeAcceptance(s: Service, sessionId: string, id: TaskId, message: string, now: int, io: Io)
    : (Service, Result<Task, TaskError>)
  {
    match RequireTask(s, sessionId, id, io.goodReads > 0)
    case Err(e) => (s, Err(e))
    case Ok(t) =>
      if t.state != Submitting then (s, Err(NotAwaitingAcceptance))
      else if !io.write then (s, Err(UNREADABLE))
      else
        var rejected := t.(state := Rejected, statusMessage := Some(message), updatedAt := Instant(now));
        var (store, r) := Memory.Replace(s.store, t, rejected, None);
        if r.Err? then (s, Err(StoreFailed(r.error)))
        else
          match ReleaseQuota(s.(store := store), id)
          case (s', None) => (s', Ok(rejected))
          case (s', Some(e)) => (s', Err(e))
  }

  // ---------------------------------------------------------------- restart

  predicate KindsMatch(kinds: map<string, Pool>, tasks: map<TaskId, Task>) {
    forall id | id in tasks :: tasks[id].kind in kinds && kinds[tasks[id].kind] == tasks[id].pool
  }

  /** Restores one slot for each recovered task, in the order the store lists them. */
  function RestoreAll(q: Quota, leases: map<TaskId, Lease>, tasks: map<TaskId, Task>, order: seq<TaskId>)
    : Result<(Quota, map<TaskId, Lease>), QuotaError>
  {
    if order == [] then Ok((q, leases))
    else
      var n := |order| - 1;
      match RestoreAll(q, leases, tasks, order[..n])
      case Err(e) => Err(e)
      case Ok((q1, leases1)) =>
        if order[n] !in tasks then Ok((q1, leases1))
        else match Restore(q1, tasks[order[n]].source.sessionId, tasks[order[n]].pool)
          case (_, Err(e)) => Err(e)
          case (q2, Ok(lease)) => Ok((q2, leases1[order[n] := lease]))
  }

  function Fresh(kinds: map<string, Pool>, store: Memory.Store, limits: Limits): Service {
    Service(kinds, store, Start(limits).quota, map[], map[], map[], map[], {}, {}, [], [])
  }

  /** A new process over the same store: leases are rebuilt, nobody is notified. */
  function Restart(kinds: map<string, Pool>, store: Memory.Store, limits: Limits, order: seq<TaskId>, now: int, io: Io)
    : Result<Service, TaskError>
  {
    if io.goodReads == 0 then Err(UNREADABLE)
    else if exists id | id in store.tasks :: store.tasks[id].kind !in kinds then Err(UnknownKind)
    else if !KindsMatch(kinds, store.tasks) then Err(PoolMismatch)
    else if Memory.NonTerminal(store.tasks) == map[] then Ok(Fresh(kinds, store, limits))
    else if !io.write then Err(UNREADABLE)
    else match Memory.RecoverNonTerminal(store, Instant(now), "reconciliation-required")
      case (_, Err(e)) => Err(StoreFailed(e))
      case (store', Ok(recovered)) =>
        match RestoreAll(Start(limits).quota, map[], recovered, order)
        case Err(e) => Err(QuotaFailed(e))
        case Ok((q, leases)) => Ok(Fresh(kinds, store', limits).(quota := q, leases := leases))
  }
}
