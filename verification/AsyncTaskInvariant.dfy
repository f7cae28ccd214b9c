/**
 The invariant of the Async Tool Task service and the proof that every call keeps it, whatever
 the store does. Module AsyncTaskRuns draws the whole-run conclusions.
 */
module AsyncTaskInvariant {
  import opened Common
  import opened SessionTaskQuota
  import opened AsyncTaskFacts
  import opened AsyncTaskService
  import Memory = InMemoryTaskStore

  // ---------------------------------------------------------------- the invariant

  ghost function NonTerminalIds(tasks: map<TaskId, Task>): set<TaskId> {
    set id | id in tasks && !Terminal(tasks[id].state)
  }

  ghost function Handles(leases: map<TaskId, Lease>): set<Lease> {
    set id | id in leases :: leases[id]
  }

  /**
   The live handles are exactly the ones the service holds, one for each non-terminal task, and
   the ones held by blocking callers.
   */
  ghost predicate LeaseOk(tasks: map<TaskId, Task>, leases: map<TaskId, Lease>, live: set<Lease>, held: set<Lease>) {
    && leases.Keys == NonTerminalIds(tasks)
    && (forall id | id in leases :: leases[id].key == KeyOf(tasks[id]))
    && (forall id, id' | id in leases && id' in leases && leases[id] == leases[id'] :: id == id')
    && (forall id | id in leases :: leases[id] !in held)
    && live == Handles(leases) + held
  }

  ghost predicate OverlayOk(store: Memory.Store, overlay: map<TaskId, Task>, bySource: map<Source, TaskId>) {
    && (forall id | id in overlay ::
          overlay[id].taskId == id && overlay[id].state == Unknown && ValidTask(overlay[id]))
    && (forall id | id in overlay && id in store.tasks ::
          store.tasks[id].state == Submitting && IdentityOf(store.tasks[id]) == IdentityOf(overlay[id]))
    && (forall src | src in bySource :: bySource[src] in overlay && overlay[bySource[src]].source == src)
  }

  predicate IsTerminal(tasks: map<TaskId, Task>, id: TaskId) {
    id in tasks && Terminal(tasks[id].state)
  }

  predicate NeedsInput(tasks: map<TaskId, Task>, id: TaskId) {
    id in tasks && tasks[id].state == InputRequired
  }

  ghost predicate NotifyOk(tasks: map<TaskId, Task>, terminalNotified: set<TaskId>, inputNotified: set<TaskId>) {
    && (forall id | id in terminalNotified :: IsTerminal(tasks, id))
    && (forall id :: id in inputNotified <==> NeedsInput(tasks, id))
  }

  ghost predicate KindsOk(kinds: map<string, Pool>) {
    forall k | k in kinds :: !Blank(k)
  }

  ghost predicate Good(s: Service, held: set<Lease>) {
    && KindsOk(s.kinds)
    && Memory.Indexed(s.store)
    && OverlayOk(s.store, s.overlay, s.overlayBySource)
    && Consistent(s.quota)
    && LeaseOk(Effective(s), s.leases, LiveLeases(s.quota), held)
    && NotifyOk(Effective(s), s.terminalNotified, s.inputNotified)
  }

  /** How a call may finish a task: not at all, with a notification, or silently by rejecting it. */
  datatype Mode = Quiet | Announcing | Rejecting

  /**
   A call changes at most the task `id`, never a terminal one and never its identity; it logs an
   input-required notification exactly when the task enters that state, and an announcing call
   logs a terminal notification exactly when the task becomes terminal.
   */
  ghost predicate Moves(s: Service, s': Service, id: TaskId, mode: Mode) {
    var before, after := Effective(s), Effective(s');
    && (after == before ||
        (id in after && after == before[id := after[id]] && after[id].taskId == id && !IsTerminal(before, id)
         && (id in before ==> IdentityOf(after[id]) == IdentityOf(before[id]))))
    && s'.inputLog == s.inputLog + (if NeedsInput(after, id) && !NeedsInput(before, id) then [id] else [])
    && s'.terminalLog == s.terminalLog + (if mode.Announcing? && IsTerminal(after, id) && !IsTerminal(before, id) then [id] else [])
    && (mode.Quiet? && IsTerminal(after, id) ==> IsTerminal(before, id))
    && s.store.bySource.Keys <= s'.store.bySource.Keys
    && s.store.tasks.Keys <= s'.store.tasks.Keys
    && s'.kinds == s.kinds
  }

  lemma Unmoved(s: Service, s': Service, id: TaskId, mode: Mode)
    requires Effective(s') == Effective(s) && s'.store == s.store && s'.kinds == s.kinds
    requires s'.inputLog == s.inputLog && s'.terminalLog == s.terminalLog
    ensures Moves(s, s', id, mode)
  {
    assert s.inputLog + [] == s.inputLog && s.terminalLog + [] == s.terminalLog;
  }

  // ---------------------------------------------------------------- leases

  lemma LeaseEnters(tasks: map<TaskId, Task>, leases: map<TaskId, Lease>, live: set<Lease>, held: set<Lease>,
                    t: Task, l: Lease, gone: set<Lease>)
    requires LeaseOk(tasks, leases, live, held) && gone <= held && l !in live
    requires t.taskId !in tasks && !Terminal(t.state) && l.key == KeyOf(t)
    ensures LeaseOk(tasks[t.taskId := t], leases[t.taskId := l], live - gone + {l}, held - gone)
  {
    var leases' := leases[t.taskId := l];
    assert t.taskId !in leases by { assert t.taskId !in NonTerminalIds(tasks); }
    assert Handles(leases') == Handles(leases) + {l} by {
      forall x | x in Handles(leases) ensures x in Handles(leases') {
        var id :| id in leases && leases[id] == x;
        assert id in leases' && leases'[id] == x;
      }
      assert leases'[t.taskId] == l;
    }
    assert leases'.Keys == NonTerminalIds(tasks[t.taskId := t]);
  }

  lemma LeaseStays(tasks: map<TaskId, Task>, leases: map<TaskId, Lease>, live: set<Lease>, held: set<Lease>, id: TaskId, t: Task)
    requires LeaseOk(tasks, leases, live, held)
    requires id in tasks && !Terminal(tasks[id].state) && !Terminal(t.state) && KeyOf(t) == KeyOf(tasks[id])
    ensures LeaseOk(tasks[id := t], leases, live, held)
  {
  }

  lemma LeaseLeaves(tasks: map<TaskId, Task>, leases: map<TaskId, Lease>, live: set<Lease>, held: set<Lease>, id: TaskId, t: Task)
    requires LeaseOk(tasks, leases, live, held)
    requires id in tasks && !Terminal(tasks[id].state) && Terminal(t.state)
    ensures id in leases && leases[id] in live
    ensures LeaseOk(tasks[id := t], leases - {id}, live - {leases[id]}, held)
  {
    assert id in NonTerminalIds(tasks);
    var leases' := leases - {id};
    assert Handles(leases') == Handles(leases) - {leases[id]} by {
      forall x | x in Handles(leases) && x != leases[id] ensures x in Handles(leases') {
        var i :| i in leases && leases[i] == x;
        assert i in leases' && leases'[i] == x;
      }
    }
    assert NonTerminalIds(tasks[id := t]) == NonTerminalIds(tasks) - {id};
  }

  /** Counting: the handles of a key are its non-terminal tasks and its blocking callers. */
  lemma LeaseCount(tasks: map<TaskId, Task>, leases: map<TaskId, Lease>, live: set<Lease>, held: set<Lease>, key: QuotaKey)
    requires LeaseOk(tasks, leases, live, held)
    ensures |WithKey(live, key)|
         == |set id | id in tasks && !Terminal(tasks[id].state) && KeyOf(tasks[id]) == key| + |WithKey(held, key)|
  {
    var ids := set id | id in tasks && !Terminal(tasks[id].state) && KeyOf(tasks[id]) == key;
    assert forall id :: id in leases <==> id in NonTerminalIds(tasks);
    assert forall id :: id in ids <==> id in leases && leases[id].key == key;
    var owned := set id | id in ids :: leases[id];
    ImageCount(ids, leases);
    hide KeyOf, Terminal, NonTerminalIds;
    forall l ensures l in WithKey(live, key) <==> l in owned || l in WithKey(held, key) {
      if l in Handles(leases) && l.key == key {
        var id :| id in leases && leases[id] == l;
        assert id in ids;
      }
    }
    assert WithKey(live, key) == owned + WithKey(held, key);
    assert owned !! WithKey(held, key);
  }

  lemma {:induction false} ImageCount(ids: set<TaskId>, leases: map<TaskId, Lease>)
    requires ids <= leases.Keys
    requires forall id, id' | id in leases && id' in leases && leases[id] == leases[id'] :: id == id'
    ensures |set id | id in ids :: leases[id]| == |ids|
  {
    if ids == {} {
      assert (set id | id in ids :: leases[id]) == {};
    } else {
      var x :| x in ids;
      ImageCount(ids - {x}, leases);
      assert (set id | id in ids :: leases[id]) == (set id | id in ids - {x} :: leases[id]) + {leases[x]};
    }
  }

  // ---------------------------------------------------------------- shared steps of the calls

  /** A new task enters with a handle of its own, possibly taken over from a blocking caller. */
  lemma TaskEnters(s: Service, s': Service, held: set<Lease>, t: Task, l: Lease, gone: set<Lease>)
    requires Good(s, held) && gone <= held
    requires t.taskId !in Effective(s) && !Terminal(t.state) && t.state != InputRequired
    requires l !in LiveLeases(s.quota) && l.key == KeyOf(t)
    requires Effective(s') == Effective(s)[t.taskId := t]
    requires Memory.Indexed(s'.store) && OverlayOk(s'.store, s'.overlay, s'.overlayBySource)
    requires Consistent(s'.quota) && LiveLeases(s'.quota) == LiveLeases(s.quota) - gone + {l}
    requires s'.leases == s.leases[t.taskId := l]
    requires s'.kinds == s.kinds && s'.inputLog == s.inputLog && s'.terminalLog == s.terminalLog
    requires s'.terminalNotified == s.terminalNotified && s'.inputNotified == s.inputNotified
    requires s.store.bySource.Keys <= s'.store.bySource.Keys && s.store.tasks.Keys <= s'.store.tasks.Keys
    ensures Good(s', held - gone) && Moves(s, s', t.taskId, Announcing) && Moves(s, s', t.taskId, Quiet)
    ensures held * LiveLeases(s'.quota) == held - gone
  {
    hide Memory.Indexed, OverlayOk, Consistent, LiveLeases, Effective;
    HeldAfter(s, held, gone, l);
    assert LeaseOk(Effective(s'), s'.leases, LiveLeases(s'.quota), held - gone) by {
      hide NotifyOk, LeaseOk;
      LeaseEnters(Effective(s), s.leases, LiveLeases(s.quota), held, t, l, gone);
    }
    hide LeaseOk;
    assert s.inputLog + [] == s.inputLog && s.terminalLog + [] == s.terminalLog;
  }

  lemma HeldAfter(s: Service, held: set<Lease>, gone: set<Lease>, l: Lease)
    requires Good(s, held) && gone <= held && l !in LiveLeases(s.quota)
    ensures held * (LiveLeases(s.quota) - gone + {l}) == held - gone
  {
    hide Good, LiveLeases;
    HeldIsLive(s, held);
  }

  /** Giving a handle back right after it was handed out leaves everything as it was. */
  lemma AcquireThenDrop(s: Service, held: set<Lease>, key: QuotaKey, id: TaskId)
    requires Good(s, held)
    ensures var (q, lease) := AddSlot(s.quota, key);
            var s' := DropLease(s.(quota := q), lease);
            Good(s', held) && Moves(s, s', id, Quiet)
  {
    var (q, lease) := AddSlot(s.quota, key);
    var s' := DropLease(s.(quota := q), lease);
    hide Memory.Indexed, OverlayOk, Consistent, LiveLeases, LeaseOk, NotifyOk, Moves;
    AddSlotLeases(s.quota, key);
    ReleaseLeases(q, lease);
    assert LiveLeases(s'.quota) == LiveLeases(s.quota);
    Unmoved(s, s', id, Quiet);
  }

  lemma TaskKnown(s: Service, held: set<Lease>, sessionId: string, id: TaskId, readable: bool)
    requires Good(s, held) && RequireTask(s, sessionId, id, readable).Ok?
    ensures var t := RequireTask(s, sessionId, id, readable).value;
            id in Effective(s) && t == Effective(s)[id] && t.taskId == id && ValidTask(t) && t.source.sessionId == sessionId
  {
    hide ValidTask, Consistent, LeaseOk, NotifyOk, Memory.ReferencesIndexed;
  }

  lemma EffectiveTaskOk(s: Service, held: set<Lease>, id: TaskId)
    requires Good(s, held) && id in Effective(s)
    ensures Effective(s)[id].taskId == id && ValidTask(Effective(s)[id])
  {
    hide ValidTask, Consistent, LeaseOk, NotifyOk, Memory.ReferencesIndexed;
  }

  lemma InsertedTask(store: Memory.Store, t: Task, ref: Option<Reference>)
    requires Memory.Indexed(store)
    requires Memory.Insert(store, t, ref).1.Ok? && t.taskId !in store.tasks
    ensures var (store', r) := Memory.Insert(store, t, ref);
            && r == Ok(InsertResult(Inserted, t)) && ValidTask(t)
            && Memory.Indexed(store') && t.taskId !in store.tasks && store'.tasks == store.tasks[t.taskId := t]
            && store.bySource.Keys <= store'.bySource.Keys
  {
    hide ValidTask, ValidOptionalReference;
    Memory.InsertIndexed(store, t, ref);
    hide Memory.ReferencesIndexed;
  }

  lemma OverlayBesideInsert(store: Memory.Store, store': Memory.Store, overlay: map<TaskId, Task>, bySource: map<Source, TaskId>, t: Task)
    requires OverlayOk(store, overlay, bySource) && t.taskId !in overlay && store'.tasks == store.tasks[t.taskId := t]
    ensures OverlayOk(store', overlay, bySource)
    ensures store'.tasks + overlay == (store.tasks + overlay)[t.taskId := t]
  {
    hide ValidTask, IdentityOf;
  }

  // ---------------------------------------------------------------- reserve

  lemma ReserveGood(s: Service, held: set<Lease>, r: Request, id: TaskId, now: int, io: Io)
    requires Good(s, held) && id !in Effective(s)
    ensures var s' := Reserve(s, r, id, now, io).0;
            Good(s', held) && Moves(s, s', id, Quiet)
    ensures Reserve(s, r, id, now, io).1.Err? ==> !LeakError(Reserve(s, r, id, now, io).1.error)
  {
    hide Good, Effective, Moves, ReserveAdmitted, Blank, AddSlot, Memory.GetBySource;
    if !BlankRequest(r) && r.kind in s.kinds && r.payload.Some? && GetBySource(s, r.source, io.goodReads > 0) == Ok(None)
       && Acquire(s.quota, r.source.sessionId, s.kinds[r.kind]).1.value.Acquired?
    {
      ReserveAdmittedGood(s, held, r, r.payload.value, id, now, io);
    } else {
      Unmoved(s, s, id, Quiet);
    }
  }

  lemma ReserveAdmittedGood(s: Service, held: set<Lease>, r: Request, payload: Payload, id: TaskId, now: int, io: Io)
    requires Good(s, held) && id !in Effective(s) && r.kind in s.kinds
    ensures var (q, lease) := AddSlot(s.quota, QuotaKey(r.source.sessionId, s.kinds[r.kind]));
            var (s', result) := ReserveAdmitted(s.(quota := q), r, payload, id, now, io, lease);
            Good(s', held) && Moves(s, s', id, Quiet) && (result.Err? ==> !LeakError(result.error))
  {
    hide Good, Moves, Memory.Insert, Memory.Get, Transfer, DropLease, AddSlot, Blank, Effective, DuplicateResult;
    var key := QuotaKey(r.source.sessionId, s.kinds[r.kind]);
    var (q, lease) := AddSlot(s.quota, key);
    var task := NewTask(id, r, s.kinds[r.kind], payload, Submitting, now, None);
    if !Blank(id) && io.goodReads >= 3 && Memory.Get(s.store, r.source.sessionId, id).None? && io.write
       && Memory.Insert(s.store, task, None).1.Ok? {
      ReserveInserted(s, held, task, q, lease);
    } else {
      AcquireThenDrop(s, held, key, id);
    }
  }

  /** Errors that would mean a lost or forged handle. */
  predicate LeakError(e: TaskError) {
    e == NoQuotaLease || e.QuotaFailed?
  }

  lemma ReserveInserted(s: Service, held: set<Lease>, t: Task, q: Quota, lease: Lease)
    requires Good(s, held) && t.taskId !in Effective(s) && t.state == Submitting
    requires (q, lease) == AddSlot(s.quota, KeyOf(t))
    requires Memory.Insert(s.store, t, None).1.Ok?
    ensures var (q', owned) := Transfer(q, lease);
            && owned.Ok? && Memory.Insert(s.store, t, None).1 == Ok(InsertResult(Inserted, t))
            && var s' := s.(store := Memory.Insert(s.store, t, None).0, quota := q', leases := s.leases[t.taskId := owned.value]);
               Good(s', held) && Moves(s, s', t.taskId, Quiet)
  {
    var (q', owned) := Transfer(q, lease);
    hide Memory.Indexed, OverlayOk, LeaseOk, NotifyOk, Consistent, Memory.Insert, LiveLeases, Moves, ValidTask;
    AddSlotLeases(s.quota, KeyOf(t));
    TransferLeases(q, lease);
    InsertedTask(s.store, t, None);
    var store := Memory.Insert(s.store, t, None).0;
    OverlayBesideInsert(s.store, store, s.overlay, s.overlayBySource, t);
    var s' := s.(store := store, quota := q', leases := s.leases[t.taskId := owned.value]);
    assert LiveLeases(s'.quota) == LiveLeases(s.quota) - {} + {owned.value};
    assert held - {} == held;
    hide Good;
    TaskEnters(s, s', held, t, owned.value, {});
  }

  // ---------------------------------------------------------------- adopt and retain

  lemma RetainEnters(s: Service, held: set<Lease>, t: Task, lease: Lease, ref: Option<Reference>)
    requires Good(s, held) && t.taskId !in Effective(s) && t.state == Unknown && ValidTask(t)
    requires lease in held && lease.key == KeyOf(t)
    ensures var (s', e) := RetainTask(s, t, Some(lease), ref);
            e.None? && Good(s', held - {lease}) && Moves(s, s', t.taskId, Quiet)
            && held * LiveLeases(s'.quota) == held - {lease}
  {
    hide Good, Moves, ValidTask, Transfer, LiveLeases, OverlayOk, LeaseOk;
    var (s', e) := RetainTask(s, t, Some(lease), ref);
    HeldIsLive(s, held);
    TasksWithoutLease(s, held, t.taskId);
    TransferLeases(s.quota, lease);
    OverlayGains(s, held, t);
    TaskEnters(s, s', held, t, Transfer(s.quota, lease).1.value, {lease});
  }

  lemma HeldIsLive(s: Service, held: set<Lease>)
    requires Good(s, held)
    ensures held <= LiveLeases(s.quota) && Consistent(s.quota)
  {
    hide Memory.Indexed, Consistent, OverlayOk, NotifyOk, LiveLeases, Effective;
  }

  /** A task has a handle exactly while it is not terminal. */
  lemma TasksWithoutLease(s: Service, held: set<Lease>, id: TaskId)
    requires Good(s, held)
    ensures id in s.leases <==> id in Effective(s) && !Terminal(Effective(s)[id].state)
  {
    hide Memory.Indexed, Consistent, OverlayOk, NotifyOk, LiveLeases, Effective;
    assert id in s.leases <==> id in NonTerminalIds(Effective(s));
  }

  lemma OverlayGains(s: Service, held: set<Lease>, t: Task)
    requires Good(s, held)
    requires t.state == Unknown && ValidTask(t)
    requires t.taskId in s.store.tasks ==>
               s.store.tasks[t.taskId].state == Submitting && IdentityOf(s.store.tasks[t.taskId]) == IdentityOf(t)
    requires t.taskId in s.overlay ==> s.overlay[t.taskId].source == t.source
    ensures Memory.Indexed(s.store)
    ensures OverlayOk(s.store, s.overlay[t.taskId := t], s.overlayBySource[t.source := t.taskId])
    ensures s.store.tasks + s.overlay[t.taskId := t] == Effective(s)[t.taskId := t]
  {
    hide ValidTask, IdentityOf, Memory.Indexed, Consistent, LeaseOk, NotifyOk;
  }

  lemma FoundIsEffective(s: Service, held: set<Lease>, t: Task, io: Io)
    requires Good(s, held)
    ensures FindAdopted(s, t, io).Ok? && FindAdopted(s, t, io).value.Some? ==>
              FindAdopted(s, t, io).value.value.taskId in Effective(s)
  {
    hide ValidTask, Consistent, LeaseOk, NotifyOk, Memory.ReferencesIndexed;
  }

  lemma NewTaskIsValid(s: Service, held: set<Lease>, id: TaskId, r: Request, now: int, message: Option<string>)
    requires Good(s, held) && !Blank(id) && !BlankRequest(r) && r.kind in s.kinds && r.payload.Some?
    ensures ValidTask(NewTask(id, r, s.kinds[r.kind], r.payload.value, Unknown, now, message))
  {
    hide Memory.Indexed, OverlayOk, Consistent, LeaseOk, NotifyOk, Blank;
  }

  /** Adopting a fresh task consumes the caller's handle or, when refused, leaves it to the caller. */
  lemma AdoptGood(s: Service, held: set<Lease>, id: TaskId, r: Request, message: Option<string>, lease: Lease,
                  ref: Option<Reference>, now: int, io: Io)
    requires Good(s, held) && id !in Effective(s) && lease in held
    ensures var (s', result) := Adopt(s, id, r, message, lease, ref, now, io);
            && Good(s', held * LiveLeases(s'.quota)) && Moves(s, s', id, Quiet) && (result.Err? ==> !LeakError(result.error))
            && (if result.Ok? || result.error.Persistence? then held * LiveLeases(s'.quota) == held - {lease} else s' == s)
  {
    hide Good, Moves, Effective, BlankRequest, Blank, FindAdopted, AdoptInsert, RetainTask, NewTask, ValidTask, LiveLeases;
    if !Blank(id) && !BlankRequest(r) && r.kind in s.kinds && r.payload.Some?
       && lease.key == QuotaKey(r.source.sessionId, s.kinds[r.kind])
    {
      var t := NewTask(id, r, s.kinds[r.kind], r.payload.value, Unknown, now, message);
      NewTaskIsValid(s, held, id, r, now, message);
      FoundIsEffective(s, held, t, io);
      assert t.taskId == id && t.state == Unknown && KeyOf(t) == lease.key by { NewTaskFields(id, r, s.kinds[r.kind], r.payload.value, now, message); }
      match FindAdopted(s, t, io)
      case Err(e) => RetainEnters(s, held, t, lease, ref);
      case Ok(None) =>
        AdoptInsertGood(s, held, t, lease, ref, io);
        assert Adopt(s, id, r, message, lease, ref, now, io) == AdoptInsert(s, t, lease, ref, io);
      case Ok(Some(existing)) => Unmoved(s, s, id, Quiet); HeldStays(s, held);
    } else {
      Unmoved(s, s, id, Quiet);
      HeldStays(s, held);
    }
  }

  lemma NewTaskFields(id: TaskId, r: Request, pool: Pool, payload: Payload, now: int, message: Option<string>)
    ensures var t := NewTask(id, r, pool, payload, Unknown, now, message);
            t.taskId == id && t.state == Unknown && KeyOf(t) == QuotaKey(r.source.sessionId, pool) && t.source == r.source
  {
  }

  lemma HeldStays(s: Service, held: set<Lease>)
    requires Good(s, held)
    ensures held * LiveLeases(s.quota) == held
  {
    HeldIsLive(s, held);
  }

  lemma AdoptInsertGood(s: Service, held: set<Lease>, t: Task, lease: Lease, ref: Option<Reference>, io: Io)
    requires Good(s, held) && t.taskId !in Effective(s) && t.state == Unknown && ValidTask(t)
    requires lease in held && lease.key == KeyOf(t)
    ensures var (s', result) := AdoptInsert(s, t, lease, ref, io);
            && Good(s', held * LiveLeases(s'.quota)) && Moves(s, s', t.taskId, Quiet) && (result.Err? ==> !LeakError(result.error))
            && (result.Ok? || result.error.Persistence?) && held * LiveLeases(s'.quota) == held - {lease}
  {
    hide Good, Moves, ValidTask, Memory.Insert, RetainTask, LiveLeases, KeyOf, Transfer, Effective;
    if io.write && Memory.Insert(s.store, t, ref).1.Ok? {
      AdoptInserted(s, held, t, lease, ref);
    } else {
      RetainEnters(s, held, t, lease, ref);
    }
  }

  lemma AdoptInserted(s: Service, held: set<Lease>, t: Task, lease: Lease, ref: Option<Reference>)
    requires Good(s, held) && t.taskId !in Effective(s) && t.state == Unknown
    requires lease in held && lease.key == KeyOf(t)
    requires Memory.Insert(s.store, t, ref).1.Ok?
    ensures var (q', owned) := Transfer(s.quota, lease);
            && owned.Ok? && Memory.Insert(s.store, t, ref).1 == Ok(InsertResult(Inserted, t))
            && var s' := s.(store := Memory.Insert(s.store, t, ref).0, quota := q', leases := s.leases[t.taskId := owned.value]);
               Good(s', held - {lease}) && Moves(s, s', t.taskId, Quiet) && held * LiveLeases(s'.quota) == held - {lease}
  {
    hide Memory.Indexed, OverlayOk, LeaseOk, NotifyOk, Consistent, Memory.Insert, LiveLeases, Moves, ValidTask, Transfer;
    HeldIsLive(s, held);
    TransferLeases(s.quota, lease);
    var (q', owned) := Transfer(s.quota, lease);
    InsertedTask(s.store, t, ref);
    var store := Memory.Insert(s.store, t, ref).0;
    OverlayBesideInsert(s.store, store, s.overlay, s.overlayBySource, t);
    var s' := s.(store := store, quota := q', leases := s.leases[t.taskId := owned.value]);
    hide Good;
    TaskEnters(s, s', held, t, owned.value, {lease});
  }

  /** A task that already has a handle stays live while its facts change. */
  lemma TaskStays(s: Service, s': Service, held: set<Lease>, t: Task)
    requires Good(s, held)
    requires t.taskId in Effective(s) && !IsTerminal(Effective(s), t.taskId) && !Terminal(t.state)
    requires IdentityOf(t) == IdentityOf(Effective(s)[t.taskId])
    requires Effective(s') == Effective(s)[t.taskId := t]
    requires Memory.Indexed(s'.store) && OverlayOk(s'.store, s'.overlay, s'.overlayBySource)
    requires s'.quota == s.quota && s'.leases == s.leases && s'.kinds == s.kinds
    requires s'.terminalNotified == s.terminalNotified && s'.terminalLog == s.terminalLog
    requires InputTold(s, s', t)
    requires s.store.bySource.Keys <= s'.store.bySource.Keys && s.store.tasks.Keys <= s'.store.tasks.Keys
    ensures Good(s', held) && Moves(s, s', t.taskId, Announcing) && Moves(s, s', t.taskId, Quiet)
  {
    hide Memory.Indexed, OverlayOk, Consistent, LiveLeases, Effective;
    assert LeaseOk(Effective(s'), s'.leases, LiveLeases(s'.quota), held) by {
      hide NotifyOk, LeaseOk;
      assert KeyOf(t) == KeyOf(Effective(s)[t.taskId]) by {
        assert IdentityOf(t).source == t.source && IdentityOf(t).pool == t.pool;
      }
      LeaseStays(Effective(s), s.leases, LiveLeases(s.quota), held, t.taskId, t);
    }
    hide LeaseOk, KeyOf;
    assert s.terminalLog + [] == s.terminalLog && s.inputLog + [] == s.inputLog;
  }

  /** The input-required set and log after task `t` took its new facts. */
  ghost predicate InputTold(s: Service, s': Service, t: Task) {
    if t.state != InputRequired then s'.inputNotified == s.inputNotified - {t.taskId} && s'.inputLog == s.inputLog
    else
      && s'.inputNotified == s.inputNotified + {t.taskId}
      && s'.inputLog == s.inputLog + (if t.taskId in s.inputNotified then [] else [t.taskId])
  }

  lemma RetainStays(s: Service, held: set<Lease>, t: Task, lease: Option<Lease>, ref: Option<Reference>)
    requires Good(s, held) && t.state == Unknown && ValidTask(t)
    requires t.taskId in Effective(s) && Effective(s)[t.taskId].state in {Submitting, Unknown}
    requires IdentityOf(t) == IdentityOf(Effective(s)[t.taskId])
    requires t.taskId in s.store.tasks ==>
               s.store.tasks[t.taskId].state == Submitting && IdentityOf(s.store.tasks[t.taskId]) == IdentityOf(t)
    ensures var (s', e) := RetainTask(s, t, lease, ref);
            e.None? && Good(s', held) && Moves(s, s', t.taskId, Quiet)
  {
    var (s', e) := RetainTask(s, t, lease, ref);
    hide Good, Moves, ValidTask, OverlayOk, Memory.Indexed;
    TasksWithoutLease(s, held, t.taskId);
    assert t.taskId in s.overlay ==> s.overlay[t.taskId].source == t.source by {
      assert IdentityOf(t).source == t.source;
    }
    OverlayGains(s, held, t);
    NotWaiting(s, held, t.taskId);
    TaskStays(s, s', held, t);
  }

  lemma NotWaiting(s: Service, held: set<Lease>, id: TaskId)
    requires Good(s, held)
    ensures id in s.inputNotified <==> NeedsInput(Effective(s), id)
  {
    hide Memory.Indexed, OverlayOk, Consistent, LiveLeases, LeaseOk;
  }

  /** What a retaining caller may claim: a known fact that is the durable one, and its own task. */
  ghost predicate HonestRetain(s: Service, held: set<Lease>, id: TaskId, r: Request, known: Option<Task>, lease: Option<Lease>) {
    && (known.Some? ==> id in s.store.tasks && s.store.tasks[id] == known.value)
    && (id in Effective(s) ==> Effective(s)[id].source == r.source)
    && (lease.Some? ==> lease.value in held)
  }

  lemma RetainUncertainGood(s: Service, held: set<Lease>, id: TaskId, r: Request, message: Option<string>, known: Option<Task>,
                            lease: Option<Lease>, ref: Option<Reference>, now: int, io: Io)
    requires Good(s, held) && HonestRetain(s, held, id, r, known, lease)
    ensures var (s', result) := RetainUncertain(s, id, r, message, known, lease, ref, now, io);
            && Good(s', held * LiveLeases(s'.quota)) && Moves(s, s', id, Quiet) && (result.Err? ==> !LeakError(result.error))
            && (id in Effective(s) ==> held * LiveLeases(s'.quota) == held)
  {
    hide Good, Moves, RetainTask, RetainVerdict, Effective, IdentityOf, ValidTask, LiveLeases;
    match RetainVerdict(s, id, r, message, known, lease, now, io)
    case Err(e) =>
      RetainRefusal(s, id, r, message, known, lease, now, io);
      Unmoved(s, s, id, Quiet);
      HeldStays(s, held);
    case Ok(t) =>
      RetainedTaskOk(s, held, id, r, message, known, lease, now, io);
      if id in Effective(s) {
        RetainStays(s, held, t, lease, ref);
        HeldStays(RetainTask(s, t, lease, ref).0, held);
      } else {
        TasksWithoutLease(s, held, id);
        RetainEnters(s, held, t, lease.value, ref);
      }
  }

  lemma RetainRefusal(s: Service, id: TaskId, r: Request, message: Option<string>, known: Option<Task>,
                      lease: Option<Lease>, now: int, io: Io)
    ensures var v := RetainVerdict(s, id, r, message, known, lease, now, io);
            v.Err? ==> !LeakError(v.error)
  {
    hide BlankRequest, Blank, KnownMatches, RetainMismatch, Memory.Get, Memory.GetBySource, NewTask;
  }

  /** The retained fact agrees in identity with whatever the service already knows of the task. */
  lemma RetainedTaskOk(s: Service, held: set<Lease>, id: TaskId, r: Request, message: Option<string>, known: Option<Task>,
                       lease: Option<Lease>, now: int, io: Io)
    requires Good(s, held) && HonestRetain(s, held, id, r, known, lease)
    requires RetainVerdict(s, id, r, message, known, lease, now, io).Ok?
    ensures var t := RetainVerdict(s, id, r, message, known, lease, now, io).value;
            && t.taskId == id && t.state == Unknown && ValidTask(t)
            && (id !in s.leases ==> lease.Some? && lease.value.key == KeyOf(t))
            && (id in Effective(s) ==> Effective(s)[id].state in {Submitting, Unknown} && IdentityOf(t) == IdentityOf(Effective(s)[id]))
            && (id in s.store.tasks ==> s.store.tasks[id].state == Submitting && IdentityOf(s.store.tasks[id]) == IdentityOf(t))
  {
    hide RetainVerdict, KindsOk, Consistent, LeaseOk, NotifyOk, Memory.ReferencesIndexed, LiveLeases, KeyOf, Blank, ValidSource;
    RetainedShape(s, id, r, message, known, lease, now, io);
  }

  /** What a verdict says of its task, with the facts it was compared with. */
  lemma RetainedShape(s: Service, id: TaskId, r: Request, message: Option<string>, known: Option<Task>,
                      lease: Option<Lease>, now: int, io: Io)
    requires KindsOk(s.kinds) && RetainVerdict(s, id, r, message, known, lease, now, io).Ok?
    ensures var t := RetainVerdict(s, id, r, message, known, lease, now, io).value;
            && t.taskId == id && t.state == Unknown && (t.createdAt.Instant? ==> ValidTask(t))
            && t.source == r.source && t.kind == r.kind && t.toolName == r.toolName && r.kind in s.kinds && t.pool == s.kinds[r.kind]
            && (id !in s.leases ==> lease.Some? && lease.value.key == KeyOf(t))
            && var existing, durable := RetainExisting(s, id, r, known, io), RetainDurable(s, id, r, known, io);
            && existing.Ok? && durable.Ok?
            && (existing.value.Some? ==> existing.value.value.taskId == id)
            && !RetainMismatch(existing.value, r, t.pool) && !RetainMismatch(durable.value, r, t.pool)
            && (durable.value.Some? ==> durable.value.value.state == Submitting)
            && t.createdAt == (if durable.value.Some? then durable.value.value.createdAt
                               else if existing.value.Some? then existing.value.value.createdAt else Instant(now))
  {
    hide RetainExisting, RetainDurable, RetainMismatch, KnownMatches, Blank;
  }

  // ---------------------------------------------------------------- accept, update, reject

  lemma LeaseToRelease(s: Service, held: set<Lease>, id: TaskId)
    requires Good(s, held) && id in Effective(s) && !IsTerminal(Effective(s), id)
    ensures id in s.leases && Release(s.quota, s.leases[id]).1.Ok?
  {
    hide OverlayOk, Memory.Indexed, Consistent, LeaseOk, NotifyOk, LiveLeases, Release;
    TasksWithoutLease(s, held, id);
    ReleaseLeases(s.quota, s.leases[id]);
  }

  /** A task becomes terminal: its handle is released, and it is announced if this call announces. */
  lemma TaskFinishes(s: Service, s': Service, held: set<Lease>, t: Task, mode: Mode)
    requires Good(s, held) && !mode.Quiet?
    requires t.taskId in Effective(s) && !IsTerminal(Effective(s), t.taskId) && Terminal(t.state)
    requires IdentityOf(t) == IdentityOf(Effective(s)[t.taskId])
    requires Effective(s') == Effective(s)[t.taskId := t]
    requires Memory.Indexed(s'.store) && OverlayOk(s'.store, s'.overlay, s'.overlayBySource)
    requires t.taskId in s.leases && s'.quota == Release(s.quota, s.leases[t.taskId]).0
    requires s'.leases == s.leases - {t.taskId} && s'.kinds == s.kinds
    requires s'.inputNotified == s.inputNotified - {t.taskId} && s'.inputLog == s.inputLog
    requires s'.terminalNotified == s.terminalNotified + (if mode.Announcing? then {t.taskId} else {})
    requires s'.terminalLog == s.terminalLog + (if mode.Announcing? then [t.taskId] else [])
    requires s.store.bySource.Keys <= s'.store.bySource.Keys && s.store.tasks.Keys <= s'.store.tasks.Keys
    ensures Good(s', held) && Moves(s, s', t.taskId, mode)
  {
    hide Memory.Indexed, OverlayOk, Consistent, LiveLeases, Effective, Release, IdentityOf;
    assert LeaseOk(Effective(s'), s'.leases, LiveLeases(s'.quota), held) by {
      hide NotifyOk, LeaseOk;
      LeaseLeaves(Effective(s), s.leases, LiveLeases(s.quota), held, t.taskId, t);
      ReleaseLeases(s.quota, s.leases[t.taskId]);
    }
    assert Consistent(s'.quota) by { ReleaseLeases(s.quota, s.leases[t.taskId]); }
    hide LeaseOk;
    assert s.inputLog + [] == s.inputLog;
  }

  lemma WrittenStore(s: Service, held: set<Lease>, t: Task, next: Task, ref: Option<Reference>, io: Io)
    requires Good(s, held) && t.taskId in Effective(s) && t == Effective(s)[t.taskId]
    requires IdentityOf(next) == IdentityOf(t) && WriteAccepted(s, t, next, ref, io).Ok?
    ensures var store := WriteAccepted(s, t, next, ref, io).value;
            && Memory.Indexed(store) && store.tasks == s.store.tasks[t.taskId := next]
            && s.store.bySource.Keys <= store.bySource.Keys
  {
    hide Consistent, LeaseOk, NotifyOk, Memory.Indexed, ValidTask, ValidOptionalReference, LiveLeases;
    assert next.taskId == t.taskId by { assert IdentityOf(next).taskId == IdentityOf(t).taskId; }
    RowOfTask(s, held, t);
    hide IdentityOf, OverlayOk, Effective;
    match Memory.Get(s.store, t.source.sessionId, t.taskId)
    case None =>
      InsertedTask(s.store, next, ref);
    case Some(durable) =>
      hide Memory.ReplaceRefusal;
      Memory.ReplaceIndexed(s.store, durable, next, ref);
  }

  /** The durable row of an effective task, when there is one, belongs to the same Session. */
  lemma RowOfTask(s: Service, held: set<Lease>, t: Task)
    requires Good(s, held) && t.taskId in Effective(s) && t == Effective(s)[t.taskId]
    ensures Memory.Indexed(s.store)
    ensures t.taskId in s.store.tasks ==> Memory.Get(s.store, t.source.sessionId, t.taskId) == Some(s.store.tasks[t.taskId])
  {
    hide Consistent, LeaseOk, NotifyOk, Memory.Indexed, ValidTask, LiveLeases;
    if t.taskId in s.overlay && t.taskId in s.store.tasks {
      assert IdentityOf(s.store.tasks[t.taskId]).source == IdentityOf(t).source;
    }
  }

  lemma OverlayCleared(s: Service, store: Memory.Store, t: Task, next: Task)
    requires OverlayOk(s.store, s.overlay, s.overlayBySource)
    requires store.tasks == s.store.tasks[t.taskId := next]
    requires t.taskId in s.overlay ==> s.overlay[t.taskId].source == t.source
    ensures OverlayOk(store, s.overlay - {t.taskId}, s.overlayBySource - {t.source})
    ensures store.tasks + (s.overlay - {t.taskId}) == Effective(s)[t.taskId := next]
  {
    hide ValidTask, IdentityOf;
  }

  lemma ReplaceAcceptedGood(s: Service, held: set<Lease>, t: Task, u: Update, ref: Option<Reference>, now: int, io: Io)
    requires Good(s, held) && t.taskId in Effective(s) && t == Effective(s)[t.taskId] && !Terminal(t.state)
    ensures var (s', result) := ReplaceAccepted(s, t, u, ref, now, io);
            Good(s', held) && Moves(s, s', t.taskId, Announcing) && (result.Err? ==> !LeakError(result.error))
            && (result.Ok? ==> Effective(s') == Effective(s)[t.taskId := result.value] && result.value.state == u.state)
  {
    hide Good, Moves, WriteAccepted, AfterAccepted, NextTask, Terminal, Effective;
    var payload := if u.payload.NewPayload? then u.payload.payload else t.payload;
    var next := NextTask(t, u, payload, now);
    var reference := if ref.Some? then ref
                     else if t.taskId in s.overlayReference then Some(s.overlayReference[t.taskId]) else None;
    if !u.payload.BadPayload? && WriteAccepted(s, t, next, reference, io).Ok? {
      NextTaskIdentity(t, u, payload, now);
      WrittenStore(s, held, t, next, reference, io);
      AfterAcceptedGood(s, held, t, next, WriteAccepted(s, t, next, reference, io).value);
    } else {
      Unmoved(s, s, t.taskId, Announcing);
    }
  }

  lemma NextTaskIdentity(t: Task, u: Update, payload: Payload, now: int)
    ensures var next := NextTask(t, u, payload, now);
            IdentityOf(next) == IdentityOf(t) && next.state == u.state && next.taskId == t.taskId
  {
  }

  lemma AfterAcceptedGood(s: Service, held: set<Lease>, t: Task, next: Task, store: Memory.Store)
    requires AcceptedWrite(s, held, t, next, store)
    ensures var (s', e) := AfterAccepted(s.(store := store), t, next);
            e.None? && Good(s', held) && Moves(s, s', t.taskId, Announcing) && Effective(s') == Effective(s)[t.taskId := next]
  {
    hide AcceptedWrite, AfterAccepted, Good, Moves, Effective;
    if Terminal(next.state) {
      AfterAcceptedFinal(s, held, t, next, store);
    } else {
      AfterAcceptedLive(s, held, t, next, store);
    }
  }

  /** The situation right after the store wrote `next` over the live task `t`. */
  ghost predicate AcceptedWrite(s: Service, held: set<Lease>, t: Task, next: Task, store: Memory.Store) {
    && Good(s, held) && t.taskId in Effective(s) && t == Effective(s)[t.taskId] && !Terminal(t.state)
    && IdentityOf(next) == IdentityOf(t) && next.taskId == t.taskId
    && Memory.Indexed(store) && store.tasks == s.store.tasks[t.taskId := next] && s.store.bySource.Keys <= store.bySource.Keys
  }

  lemma AfterAcceptedLive(s: Service, held: set<Lease>, t: Task, next: Task, store: Memory.Store)
    requires AcceptedWrite(s, held, t, next, store) && !Terminal(next.state)
    ensures var (s', e) := AfterAccepted(s.(store := store), t, next);
            e.None? && Good(s', held) && Moves(s, s', t.taskId, Announcing) && Effective(s') == Effective(s)[t.taskId := next]
  {
    hide Good, Moves, Memory.Indexed, OverlayOk, AfterAccepted, InputTold, IdentityOf, Terminal, ValidTask;
    NotWaiting(s, held, t.taskId);
    OverlayParts(s, held, t);
    OverlayCleared(s, store, t, next);
    LiveParts(s, store, t, next);
    TaskStays(s, AfterAccepted(s.(store := store), t, next).0, held, next);
  }

  /** What telling a live task changes beside the store. */
  lemma LiveParts(s: Service, store: Memory.Store, t: Task, next: Task)
    requires !Terminal(next.state) && next.taskId == t.taskId && (t.taskId in s.inputNotified <==> t.state == InputRequired)
    ensures var (s', e) := AfterAccepted(s.(store := store), t, next);
            && e.None? && s'.store == store && s'.overlay == s.overlay - {t.taskId} && s'.overlayBySource == s.overlayBySource - {t.source}
            && s'.quota == s.quota && s'.leases == s.leases && s'.kinds == s.kinds
            && s'.terminalNotified == s.terminalNotified && s'.terminalLog == s.terminalLog && InputTold(s, s', next)
  {
    hide Terminal, ReleaseQuota, NotifyTerminal, NotifyInputRequired;
    var cleared := s.(store := store, overlay := s.overlay - {t.taskId},
                      overlayBySource := s.overlayBySource - {t.source},
                      overlayReference := s.overlayReference - {t.taskId});
    InputAnnounced(cleared, t.taskId);
    assert t.taskId in s.inputNotified ==> s.inputNotified + {t.taskId} == s.inputNotified;
    assert s.inputLog + [] == s.inputLog;
  }

  lemma InputAnnounced(s: Service, id: TaskId)
    ensures NotifyInputRequired(s, id)
            == s.(inputNotified := s.inputNotified + {id}, inputLog := s.inputLog + (if id in s.inputNotified then [] else [id]))
  {
    assert id in s.inputNotified ==> s.inputNotified + {id} == s.inputNotified;
    assert s.inputLog + [] == s.inputLog;
  }

  lemma AfterAcceptedFinal(s: Service, held: set<Lease>, t: Task, next: Task, store: Memory.Store)
    requires AcceptedWrite(s, held, t, next, store) && Terminal(next.state)
    ensures var (s', e) := AfterAccepted(s.(store := store), t, next);
            e.None? && Good(s', held) && Moves(s, s', t.taskId, Announcing) && Effective(s') == Effective(s)[t.taskId := next]
  {
    hide Good, Moves, Memory.Indexed, OverlayOk, NotifyInputRequired, IdentityOf, Terminal, Release;
    TerminalIsNotInput(next.state);
    OverlayParts(s, held, t);
    OverlayCleared(s, store, t, next);
    NotToldYet(s, held, t.taskId);
    LeaseToRelease(s, held, t.taskId);
    TaskFinishes(s, AfterAccepted(s.(store := store), t, next).0, held, next, Announcing);
  }

  lemma TerminalIsNotInput(state: TaskState)
    ensures Terminal(state) ==> state != InputRequired
  {
  }

  lemma OverlayParts(s: Service, held: set<Lease>, t: Task)
    requires Good(s, held) && t.taskId in Effective(s) && t == Effective(s)[t.taskId]
    ensures OverlayOk(s.store, s.overlay, s.overlayBySource)
    ensures t.taskId in s.overlay ==> s.overlay[t.taskId].source == t.source
  {
    hide OverlayOk, Memory.Indexed, Consistent, LeaseOk, NotifyOk, LiveLeases;
  }

  lemma NotToldYet(s: Service, held: set<Lease>, id: TaskId)
    requires Good(s, held) && !IsTerminal(Effective(s), id)
    ensures id !in s.terminalNotified
  {
    hide OverlayOk, Memory.Indexed, Consistent, LeaseOk, LiveLeases, Effective;
  }

  lemma AcceptGood(s: Service, held: set<Lease>, sessionId: string, id: TaskId, u: Update, ref: Option<Reference>, now: int, io: Io)
    requires Good(s, held)
    ensures var (s', result) := Accept(s, sessionId, id, u, ref, now, io);
            Good(s', held) && Moves(s, s', id, Announcing) && (result.Err? ==> !LeakError(result.error))
            && (result.Ok? ==> Effective(s') == Effective(s)[id := result.value] && result.value.state == u.state)
  {
    hide Good, Moves, Effective, RequireTask, ReplaceAccepted;
    Unmoved(s, s, id, Announcing);
    if RequireTask(s, sessionId, id, io.goodReads > 0).Ok? {
      var t := RequireTask(s, sessionId, id, io.goodReads > 0).value;
      TaskKnown(s, held, sessionId, id, io.goodReads > 0);
      hide ValidTask;
      if t.state == Submitting {
        assert !Terminal(t.state);
        ReplaceAcceptedGood(s, held, t, u, ref, now, io);
      }
    }
  }

  lemma UpdateAcceptedGood(s: Service, held: set<Lease>, sessionId: string, id: TaskId, u: Update, ref: Option<Reference>, now: int, io: Io)
    requires Good(s, held)
    ensures var (s', result) := UpdateAccepted(s, sessionId, id, u, ref, now, io);
            Good(s', held) && Moves(s, s', id, Announcing) && (result.Err? ==> !LeakError(result.error))
            && (result.Ok? ==> Effective(s') == Effective(s)[id := result.value] && result.value.state == u.state)
            && (result.Err? ==> result.error.Persistence? ==> s' == s)
  {
    hide Good, Moves, RequireTask, ReplaceAccepted;
    Unmoved(s, s, id, Announcing);
    if RequireTask(s, sessionId, id, io.goodReads > 0).Ok? {
      var t := RequireTask(s, sessionId, id, io.goodReads > 0).value;
      TaskKnown(s, held, sessionId, id, io.goodReads > 0);
      hide ValidTask;
      assert Effective(s) == Effective(s)[id := t];
      if !Terminal(t.state) {
        ReplaceAcceptedGood(s, held, t, u, ref, now, io);
        ReplaceAcceptedFault(s, t, u, ref, now, io);
      }
    }
  }

  lemma ReplaceAcceptedFault(s: Service, t: Task, u: Update, ref: Option<Reference>, now: int, io: Io)
    ensures var (s', result) := ReplaceAccepted(s, t, u, ref, now, io);
            result.Err? ==> result.error.Persistence? ==> s' == s
  {
    hide WriteAccepted, NextTask, Release;
  }

  lemma RejectGood(s: Service, held: set<Lease>, sessionId: string, id: TaskId, message: string, now: int, io: Io)
    requires Good(s, held)
    ensures var (s', result) := RejectBeforeAcceptance(s, sessionId, id, message, now, io);
            Good(s', held) && Moves(s, s', id, Rejecting) && (result.Err? ==> !LeakError(result.error))
  {
    hide Good, Moves, Effective, RequireTask, Memory.Replace, ReleaseQuota, ValidTask;
    Unmoved(s, s, id, Rejecting);
    RequireTaskErrors(s, sessionId, id, io.goodReads > 0);
    if RequireTask(s, sessionId, id, io.goodReads > 0).Ok? {
      var t := RequireTask(s, sessionId, id, io.goodReads > 0).value;
      TaskKnown(s, held, sessionId, id, io.goodReads > 0);
      var rejected := t.(state := Rejected, statusMessage := Some(message), updatedAt := Instant(now));
      if t.state == Submitting && io.write && Memory.Replace(s.store, t, rejected, None).1.Ok? {
        RejectWritten(s, held, t, rejected);
      }
    }
  }

  lemma RequireTaskErrors(s: Service, sessionId: string, id: TaskId, readable: bool)
    ensures var r := RequireTask(s, sessionId, id, readable);
            r.Err? ==> r.error == UNREADABLE || r.error == NotFound
  {
  }

  lemma RejectWritten(s: Service, held: set<Lease>, t: Task, rejected: Task)
    requires Good(s, held) && t.taskId in Effective(s) && t == Effective(s)[t.taskId] && t.state == Submitting
    requires rejected.state == Rejected && IdentityOf(rejected) == IdentityOf(t) && Memory.Replace(s.store, t, rejected, None).1.Ok?
    ensures var (s', e) := ReleaseQuota(s.(store := Memory.Replace(s.store, t, rejected, None).0), t.taskId);
            e.None? && Good(s', held) && Moves(s, s', t.taskId, Rejecting)
  {
    hide Good, Moves, Memory.Indexed, OverlayOk, Release, Memory.ReplaceRefusal, LiveLeases;
    assert rejected.taskId == t.taskId;
    hide IdentityOf;
    SubmittingIsDurable(s, held, t);
    Memory.ReplaceIndexed(s.store, t, rejected, None);
    var store := Memory.Replace(s.store, t, rejected, None).0;
    OverlayBesideWrite(s, store, t.taskId, rejected);
    NotWaiting(s, held, t.taskId);
    LeaseToRelease(s, held, t.taskId);
    TaskFinishes(s, ReleaseQuota(s.(store := store), t.taskId).0, held, rejected, Rejecting);
  }

  lemma SubmittingIsDurable(s: Service, held: set<Lease>, t: Task)
    requires Good(s, held) && t.taskId in Effective(s) && t == Effective(s)[t.taskId] && t.state == Submitting
    ensures t.taskId !in s.overlay && Memory.Indexed(s.store) && OverlayOk(s.store, s.overlay, s.overlayBySource)
  {
    hide Consistent, LeaseOk, NotifyOk, Memory.Indexed, ValidTask, LiveLeases, IdentityOf;
  }

  lemma OverlayBesideWrite(s: Service, store: Memory.Store, id: TaskId, t: Task)
    requires OverlayOk(s.store, s.overlay, s.overlayBySource) && id !in s.overlay && store.tasks == s.store.tasks[id := t]
    ensures OverlayOk(store, s.overlay, s.overlayBySource)
    ensures store.tasks + s.overlay == Effective(s)[id := t]
  {
    hide ValidTask, IdentityOf;
  }

  // ---------------------------------------------------------------- blocking callers

  /** A blocking caller takes a handle for itself. */
  lemma HoldGood(s: Service, held: set<Lease>, key: QuotaKey)
    requires Good(s, held)
    ensures var (q, lease) := AddSlot(s.quota, key);
            Good(s.(quota := q), held + {lease}) && lease !in held
  {
    hide Memory.Indexed, OverlayOk, NotifyOk, Consistent, LiveLeases, AddSlot;
    AddSlotLeases(s.quota, key);
    var (q, lease) := AddSlot(s.quota, key);
    assert Effective(s.(quota := q)) == Effective(s);
    hide Effective, NonTerminalIds, KeyOf;
    assert forall id | id in s.leases :: s.leases[id] in Handles(s.leases);
  }

  /** A blocking caller gives its handle back. */
  lemma ReleaseHeldGood(s: Service, held: set<Lease>, lease: Lease)
    requires Good(s, held) && lease in held
    ensures Good(DropLease(s, lease), held - {lease}) && Release(s.quota, lease).1.Ok?
  {
    hide Memory.Indexed, OverlayOk, NotifyOk, Consistent, LiveLeases, Release;
    ReleaseLeases(s.quota, lease);
    assert Effective(DropLease(s, lease)) == Effective(s);
    hide Effective, NonTerminalIds, KeyOf;
    assert forall id | id in s.leases :: s.leases[id] in Handles(s.leases);
  }

  // ---------------------------------------------------------------- restart

  ghost predicate ListsOnce(order: seq<TaskId>, ids: set<TaskId>) {
    && (forall id :: id in ids <==> id in order)
    && (forall i, j | 0 <= i < j < |order| :: order[i] != order[j])
  }

  ghost predicate RestoredOk(q: Quota, leases: map<TaskId, Lease>, tasks: map<TaskId, Task>, order: seq<TaskId>) {
    && Consistent(q)
    && (forall id :: id in leases <==> id in order && id in tasks)
    && (forall id | id in leases :: leases[id].key == KeyOf(tasks[id]))
    && (forall id, id' | id in leases && id' in leases && leases[id] == leases[id'] :: id == id')
    && LiveLeases(q) == Handles(leases)
  }

  lemma {:induction false} RestoreAllOk(limits: Limits, tasks: map<TaskId, Task>, order: seq<TaskId>)
    requires forall id | id in tasks :: !Blank(tasks[id].source.sessionId)
    requires forall i, j | 0 <= i < j < |order| :: order[i] != order[j]
    ensures var r := RestoreAll(Start(limits).quota, map[], tasks, order);
            r.Ok? && RestoredOk(r.value.0, r.value.1, tasks, order)
  {
    hide RestoredOk, Blank;
    if order == [] {
      EmptyQuota(limits, tasks);
    } else {
      var n := |order| - 1;
      RestoreAllOk(limits, tasks, order[..n]);
      var (q, leases) := RestoreAll(Start(limits).quota, map[], tasks, order[..n]).value;
      RestoreOne(q, leases, tasks, order);
    }
  }

  lemma EmptyQuota(limits: Limits, tasks: map<TaskId, Task>)
    ensures RestoredOk(Start(limits).quota, map[], tasks, [])
  {
    var q := Start(limits).quota;
    assert LiveLeases(q) == {};
    forall key ensures WithKey(LiveLeases(q), key) == {} {}
  }

  lemma RestoreOne(q: Quota, leases: map<TaskId, Lease>, tasks: map<TaskId, Task>, order: seq<TaskId>)
    requires order != [] && RestoredOk(q, leases, tasks, order[..|order| - 1])
    requires forall i, j | 0 <= i < j < |order| :: order[i] != order[j]
    ensures var id := order[|order| - 1];
            if id in tasks then var (q', l) := AddSlot(q, KeyOf(tasks[id])); RestoredOk(q', leases[id := l], tasks, order)
            else RestoredOk(q, leases, tasks, order)
  {
    var n := |order| - 1;
    var id := order[n];
    assert order == order[..n] + [id];
    hide Consistent, LiveLeases, AddSlot;
    assert id !in order[..n];
    if id in tasks {
      AddSlotLeases(q, KeyOf(tasks[id]));
      var (q', l) := AddSlot(q, KeyOf(tasks[id]));
      assert l.key == KeyOf(tasks[id]) by { NewHandleKey(q, KeyOf(tasks[id])); }
      hide KeyOf;
      HandlesGain(leases, id, l);
      assert forall i | i in leases :: leases[i] in Handles(leases);
    }
  }

  lemma NewHandleKey(q: Quota, key: QuotaKey)
    ensures AddSlot(q, key).1.key == key
  {
  }

  lemma HandlesGain(leases: map<TaskId, Lease>, id: TaskId, l: Lease)
    requires id !in leases
    ensures Handles(leases[id := l]) == Handles(leases) + {l}
  {
    var leases' := leases[id := l];
    forall x | x in Handles(leases) ensures x in Handles(leases') {
      var i :| i in leases && leases[i] == x;
      assert i in leases' && leases'[i] == x;
    }
    assert leases'[id] == l;
  }

  /** A restart over any indexed store rebuilds exactly one handle for each unfinished task. */
  lemma RestartGood(kinds: map<string, Pool>, store: Memory.Store, limits: Limits, order: seq<TaskId>, now: int, io: Io)
    requires KindsOk(kinds) && Memory.Indexed(store) && ListsOnce(order, NonTerminalIds(store.tasks))
    ensures var r := Restart(kinds, store, limits, order, now, io);
            && (r.Err? ==> !LeakError(r.error))
            && (r.Ok? ==>
                  && Good(r.value, {}) && r.value.kinds == kinds
                  && Effective(r.value) == Memory.RecoverNonTerminal(store, Instant(now), "reconciliation-required").0.tasks
                  && r.value.store.bySource == store.bySource)
  {
    hide Good, Memory.Indexed, KindsOk, KindsMatch, ValidTask, Effective, RestoreAll, Memory.RecoverTask, NonTerminalIds;
    hide RestoredOk, Memory.NonTerminal;
    var store' := Memory.RecoverNonTerminal(store, Instant(now), "reconciliation-required").0;
    Memory.RecoverIndexed(store, Instant(now), "reconciliation-required");
    SameUnfinished(store, now);
    var recovered := Memory.NonTerminal(store'.tasks);
    SessionsNamed(store');
    RestoreAllOk(limits, recovered, order);
    var (q, leases) := RestoreAll(Start(limits).quota, map[], recovered, order).value;
    RestartedGood(kinds, store', limits, order, q, leases);
    if recovered == map[] {
      NothingUnfinished(store, now);
      EmptyQuota(limits, map[]);
      RestartedGood(kinds, store, limits, [], Start(limits).quota, map[]);
    }
  }

  lemma SameUnfinished(store: Memory.Store, now: int)
    ensures var store' := Memory.RecoverNonTerminal(store, Instant(now), "reconciliation-required").0;
            && NonTerminalIds(store'.tasks) == NonTerminalIds(store.tasks)
            && (forall id | id in store'.tasks :: store'.tasks[id].state != InputRequired)
            && store'.bySource == store.bySource
            && (Memory.NonTerminal(store'.tasks) == map[] <==> Memory.NonTerminal(store.tasks) == map[])
    ensures forall id | id in Memory.NonTerminal(Memory.RecoverNonTerminal(store, Instant(now), "reconciliation-required").0.tasks) ::
              id in store.tasks
  {
    var store' := Memory.RecoverNonTerminal(store, Instant(now), "reconciliation-required").0;
    assert Memory.NonTerminal(store'.tasks).Keys == NonTerminalIds(store'.tasks);
    assert Memory.NonTerminal(store.tasks).Keys == NonTerminalIds(store.tasks);
  }

  lemma NothingUnfinished(store: Memory.Store, now: int)
    requires Memory.NonTerminal(Memory.RecoverNonTerminal(store, Instant(now), "reconciliation-required").0.tasks) == map[]
    ensures Memory.RecoverNonTerminal(store, Instant(now), "reconciliation-required").0.tasks == store.tasks
    ensures Memory.NonTerminal(store.tasks) == map[] && ListsOnce([], NonTerminalIds(store.tasks))
    ensures forall id | id in store.tasks :: store.tasks[id].state != InputRequired
  {
    SameUnfinished(store, now);
    assert forall id | id in store.tasks && !Terminal(store.tasks[id].state) :: id in Memory.NonTerminal(store.tasks);
  }

  lemma SessionsNamed(store: Memory.Store)
    requires Memory.Indexed(store)
    ensures forall id | id in Memory.NonTerminal(store.tasks) :: !Blank(Memory.NonTerminal(store.tasks)[id].source.sessionId)
  {
    hide Memory.ReferencesIndexed, Blank;
  }

  lemma RestartedGood(kinds: map<string, Pool>, store: Memory.Store, limits: Limits, order: seq<TaskId>, q: Quota, leases: map<TaskId, Lease>)
    requires KindsOk(kinds) && Memory.Indexed(store)
    requires RestoredOk(q, leases, Memory.NonTerminal(store.tasks), order) && ListsOnce(order, NonTerminalIds(store.tasks))
    requires forall id | id in store.tasks :: store.tasks[id].state != InputRequired
    ensures var s := Fresh(kinds, store, limits).(quota := q, leases := leases);
            Good(s, {}) && Effective(s) == store.tasks
  {
    hide KindsOk, Memory.Indexed, Consistent, LiveLeases, KeyOf;
    var s := Fresh(kinds, store, limits).(quota := q, leases := leases);
    assert Effective(s) == store.tasks;
    assert leases.Keys == NonTerminalIds(store.tasks);
  }
}
