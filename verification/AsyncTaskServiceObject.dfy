/**
 The Async Tool Task service as the object it is: two overlay maps, a lease map and two sets of
 notified tasks, updated in place beside a Task store and a quota service. Every method is proved
 equal to its specification in AsyncTaskService, about which the invariants are proved.
 */
module AsyncTaskServiceObject {
  import opened Common
  import opened SessionTaskQuota
  import opened AsyncTaskFacts
  import opened AsyncTaskService
  import Memory = InMemoryTaskStore

  class AsyncToolTaskService {
    const kinds: map<string, Pool>
    const store: Memory.InMemoryAsyncToolTaskStore
    const quota: SessionTaskQuotaService
    var uncertainByTaskId: map<TaskId, Task>
    var uncertainTaskIdBySource: map<Source, TaskId>
    var uncertainReferenceByTaskId: map<TaskId, Reference>
    var leaseByTaskId: map<TaskId, Lease>
    var terminalNotified: set<TaskId>
    var inputNotified: set<TaskId>
    var terminalLog: seq<TaskId>
    var inputLog: seq<TaskId>

    function State(): Service
      reads this, store, quota
    {
      Service(kinds, store.State(), quota.State(), uncertainByTaskId, uncertainTaskIdBySource,
              uncertainReferenceByTaskId, leaseByTaskId, terminalNotified, inputNotified, terminalLog, inputLog)
    }

    constructor (kinds: map<string, Pool>, store: Memory.InMemoryAsyncToolTaskStore, quota: SessionTaskQuotaService)
      ensures this.kinds == kinds && this.store == store && this.quota == quota
      ensures State() == Fresh(kinds, store.State(), quota.limits).(quota := quota.State())
    {
      this.kinds, this.store, this.quota := kinds, store, quota;
      uncertainByTaskId, uncertainTaskIdBySource, uncertainReferenceByTaskId := map[], map[], map[];
      leaseByTaskId, terminalNotified, inputNotified, terminalLog, inputLog := map[], {}, {}, [], [];
    }

    /** Restores the slots of all unfinished tasks; the store lists them as `order`. */
    method RecoverPersistedTasks(order: seq<TaskId>, now: int, io: Io) returns (e: Option<TaskError>)
      requires State() == Fresh(kinds, store.State(), quota.limits)
      modifies this, store, quota
      ensures old(Restart(kinds, store.State(), quota.limits, order, now, io))
           == if e.None? then Ok(State()) else Err(e.value)
    {
      if io.goodReads == 0 { return Some(UNREADABLE); }
      if exists id | id in store.tasks :: store.tasks[id].kind !in kinds { return Some(UnknownKind); }
      if !KindsMatch(kinds, store.tasks) { return Some(PoolMismatch); }
      if Memory.NonTerminal(store.tasks) == map[] { return None; }
      if !io.write { return Some(UNREADABLE); }
      hide Memory.RecoverNonTerminal, RestoreAll;
      var recovered := store.RecoverTasks(Instant(now), "reconciliation-required");
      var failed := RestoreLeases(recovered.value, order);
      return if failed.Some? then Some(QuotaFailed(failed.value)) else None;
    }

    /** Restores one slot for each listed task; the first one that fails ends the recovery. */
    method RestoreLeases(tasks: map<TaskId, Task>, order: seq<TaskId>) returns (failed: Option<QuotaError>)
      requires leaseByTaskId == map[]
      modifies this`leaseByTaskId, quota
      ensures RestoreAll(old(quota.State()), map[], tasks, order)
           == if failed.None? then Ok((quota.State(), leaseByTaskId)) else Err(failed.value)
    {
      hide Restore;
      var i := 0;
      assert order[..0] == [];
      while i < |order|
        invariant 0 <= i <= |order|
        invariant RestoreAll(old(quota.State()), map[], tasks, order[..i]) == Ok((quota.State(), leaseByTaskId))
      {
        assert order[..i + 1][..i] == order[..i] && order[..i + 1][i] == order[i];
        if order[i] in tasks {
          var lease := quota.RestoreLease(tasks[order[i]].source.sessionId, tasks[order[i]].pool);
          if lease.Err? {
            RestoreStops(old(quota.State()), tasks, order, i + 1);
            return Some(lease.error);
          }
          leaseByTaskId := leaseByTaskId[order[i] := lease.value];
        }
        i := i + 1;
      }
      assert order[..i] == order;
      return None;
    }

    method TransferInto(id: TaskId, lease: Lease) returns (e: Option<TaskError>)
      modifies this`leaseByTaskId, quota
      ensures var (q, owned) := old(Transfer(quota.State(), lease));
              && quota.State() == q
              && leaseByTaskId == (if owned.Ok? then old(leaseByTaskId)[id := owned.value] else old(leaseByTaskId))
              && e == (if owned.Ok? then None else Some(QuotaFailed(owned.error)))
              && (e.Some? ==> q == old(quota.State()))
    {
      var owned := quota.TransferLease(lease);
      if owned.Err? { return Some(QuotaFailed(owned.error)); }
      leaseByTaskId := leaseByTaskId[id := owned.value];
      return None;
    }

    method ReserveTask(r: Request, id: TaskId, now: int, io: Io) returns (result: Result<Reservation, TaskError>)
      modifies this, store, quota
      ensures (State(), result) == Reserve(old(State()), r, id, now, io)
    {
      if BlankRequest(r) { return Err(BlankField); }
      if r.kind !in kinds { return Err(UnknownKind); }
      if r.payload.None? { return Err(InvalidPayload); }
      var existing := GetBySource(State(), r.source, io.goodReads > 0);
      if existing.Err? { return Err(existing.error); }
      if existing.value.Some? { return DuplicateResult(existing.value.value, r, r.payload.value); }
      var admission := quota.AcquireLease(r.source.sessionId, kinds[r.kind]);
      match admission {
        case Err(e) => return Err(QuotaFailed(e));
        case Ok(LimitReached(pool, max)) => return Ok(TaskLimitReached(pool, max));
        case Ok(Acquired(lease)) => result := FinishReserve(r, r.payload.value, id, now, io, lease);
      }
    }

    method FinishReserve(r: Request, payload: Payload, id: TaskId, now: int, io: Io, lease: Lease)
      returns (result: Result<Reservation, TaskError>)
      requires r.kind in kinds
      modifies this, store, quota
      ensures (State(), result) == ReserveAdmitted(old(State()), r, payload, id, now, io, lease)
    {
      hide Memory.Insert, Release, Transfer, DuplicateResult;
      if Blank(id) || io.goodReads < 3 || Memory.Get(store.State(), r.source.sessionId, id).Some? || !io.write {
        var _ := quota.ReleaseLease(lease);
        return Err(if Blank(id) then BlankField else if io.goodReads < 3 then UNREADABLE
                   else if Memory.Get(store.State(), r.source.sessionId, id).Some? then TaskExists else UNREADABLE);
      }
      var task := NewTask(id, r, kinds[r.kind], payload, Submitting, now, None);
      InsertErrorKeeps(store.State(), task, None);
      InsertDuplicateKeeps(store.State(), task, None);
      var inserted := store.InsertTask(task, None);
      match inserted {
        case Err(e) =>
          var _ := quota.ReleaseLease(lease);
          return Err(StoreFailed(e));
        case Ok(InsertResult(Duplicate, t)) =>
          var _ := quota.ReleaseLease(lease);
          return DuplicateResult(t, r, payload);
        case Ok(InsertResult(Inserted, t)) =>
          var failed := TransferInto(id, lease);
          assert failed.Some? <==> Transfer(old(State()).quota, lease).1.Err?;
          if failed.Some? {
            var _ := quota.ReleaseLease(lease);
            return Err(failed.value);
          }
          return Ok(Reserved(t));
      }
    }

    method RetainUncertainTask(t: Task, lease: Option<Lease>, reference: Option<Reference>) returns (e: Option<TaskError>)
      requires t.taskId in leaseByTaskId || lease.Some?
      modifies this, quota
      ensures (State(), e) == RetainTask(old(State()), t, lease, reference)
    {
      hide Transfer;
      if t.taskId !in leaseByTaskId {
        e := TransferInto(t.taskId, lease.value);
        assert e.Some? <==> Transfer(old(State()).quota, lease.value).1.Err?;
        if e.Some? { return e; }
      }
      uncertainByTaskId := uncertainByTaskId[t.taskId := t];
      uncertainTaskIdBySource := uncertainTaskIdBySource[t.source := t.taskId];
      if reference.Some? { uncertainReferenceByTaskId := uncertainReferenceByTaskId[t.taskId := reference.value]; }
      return None;
    }

    method FailRetainedTask(t: Task, lease: Lease, reference: Option<Reference>, cause: TaskError)
      returns (result: Result<Adoption, TaskError>)
      modifies this, quota
      ensures (State(), result) == FailRetained(old(State()), t, lease, reference, cause)
    {
      hide RetainTask;
      var e := RetainUncertainTask(t, Some(lease), reference);
      if e.Some? { return Err(e.value); }
      return Err(Persistence(cause));
    }

    method AdoptAcceptedTask(id: TaskId, r: Request, message: Option<string>, lease: Lease, reference: Option<Reference>,
                             now: int, io: Io) returns (result: Result<Adoption, TaskError>)
      modifies this, store, quota
      ensures (State(), result) == Adopt(old(State()), id, r, message, lease, reference, now, io)
    {
      hide FailRetained, Memory.Insert, Release, Transfer, BlankRequest, Blank;
      if Blank(id) || BlankRequest(r) { return Err(BlankField); }
      if r.kind !in kinds { return Err(UnknownKind); }
      if lease.key != QuotaKey(r.source.sessionId, kinds[r.kind]) { return Err(LeaseMismatch); }
      if r.payload.None? { return Err(InvalidPayload); }
      var t := NewTask(id, r, kinds[r.kind], r.payload.value, Unknown, now, message);
      var found := GetBySource(State(), r.source, io.goodReads > 0);
      if found == Ok(None) { found := Get(State(), r.source.sessionId, id, io.goodReads > 1); }
      assert found == FindAdopted(State(), t, io);
      if found.Err? {
        result := FailRetainedTask(t, lease, reference, found.error);
        return;
      }
      if found.value.Some? {
        var existing := found.value.value;
        if existing.taskId != id || existing.source != r.source || existing.kind != r.kind
           || existing.toolName != r.toolName || existing.payload != r.payload.value
        {
          return Err(AdoptConflict);
        }
        var _ := quota.ReleaseLease(lease);
        return Ok(AlreadyAdopted(existing));
      }
      result := InsertAdopted(t, lease, reference, io);
    }

    method InsertAdopted(t: Task, lease: Lease, reference: Option<Reference>, io: Io) returns (result: Result<Adoption, TaskError>)
      modifies this, store, quota
      ensures (State(), result) == AdoptInsert(old(State()), t, lease, reference, io)
    {
      hide FailRetained, Memory.Insert, Release, Transfer;
      if !io.write {
        result := FailRetainedTask(t, lease, reference, UNREADABLE);
        return;
      }
      InsertErrorKeeps(store.State(), t, reference);
      var inserted := store.InsertTask(t, reference);
      match inserted {
        case Err(e) => result := FailRetainedTask(t, lease, reference, StoreFailed(e));
        case Ok(InsertResult(Duplicate, existing)) =>
          InsertDuplicateKeeps(old(store.State()), t, reference);
          var _ := quota.ReleaseLease(lease);
          return Ok(AlreadyAdopted(existing));
        case Ok(InsertResult(Inserted, stored)) =>
          var failed := TransferInto(t.taskId, lease);
          assert failed.Some? <==> Transfer(old(State()).quota, lease).1.Err?;
          if failed.Some? { return Err(failed.value); }
          return Ok(Adopted(stored));
      }
    }

    /** The task a retain request would put into the overlay; reads only. */
    method CheckRetained(id: TaskId, r: Request, message: Option<string>, known: Option<Task>, lease: Option<Lease>, now: int, io: Io)
      returns (result: Result<Task, TaskError>)
      ensures result == RetainVerdict(State(), id, r, message, known, lease, now, io)
    {
      hide BlankRequest, Blank, RetainMismatch, RetainExisting, RetainDurable, KnownMatches;
      if Blank(id) || BlankRequest(r) { return Err(BlankField); }
      if r.kind !in kinds { return Err(UnknownKind); }
      var pool := kinds[r.kind];
      if lease.Some? && lease.value.key != QuotaKey(r.source.sessionId, pool) { return Err(LeaseMismatch); }
      if r.payload.None? { return Err(InvalidPayload); }
      if !KnownMatches(known, id, r) { return Err(RetainConflict); }
      var existing := RetainExisting(State(), id, r, known, io);
      if existing.Err? { return Err(existing.error); }
      if existing.value.Some? && existing.value.value.taskId != id { return Err(RetainConflict); }
      var durable := RetainDurable(State(), id, r, known, io);
      if durable.Err? { return Err(durable.error); }
      if durable.value.Some? && durable.value.value.state != Submitting { return Err(AlreadyAccepted); }
      if RetainMismatch(existing.value, r, pool) || RetainMismatch(durable.value, r, pool) { return Err(RetainConflict); }
      if id !in leaseByTaskId && lease.None? { return Err(NoLeaseToRetain); }
      var createdAt := Instant(now);
      if durable.value.Some? { createdAt := durable.value.value.createdAt; }
      else if existing.value.Some? { createdAt := existing.value.value.createdAt; }
      return Ok(Task(id, r.kind, pool, r.source, r.toolName, createdAt, Unknown, r.payload.value, Instant(now), message));
    }

    method RetainPersistenceUncertain(id: TaskId, r: Request, message: Option<string>, known: Option<Task>, lease: Option<Lease>,
                                      reference: Option<Reference>, now: int, io: Io) returns (result: Result<Task, TaskError>)
      modifies this, quota
      ensures (State(), result) == RetainUncertain(old(State()), id, r, message, known, lease, reference, now, io)
    {
      hide RetainTask, RetainVerdict;
      result := CheckRetained(id, r, message, known, lease, now, io);
      if result.Err? { return; }
      assert result.value.taskId in leaseByTaskId || lease.Some? by {
        VerdictNeedsLease(State(), id, r, message, known, lease, now, io);
      }
      var e := RetainUncertainTask(result.value, lease, reference);
      if e.Some? { return Err(e.value); }
    }

    // -------------------------------------------------------------- accepted states

    method ReleaseTaskQuota(id: TaskId) returns (e: Option<TaskError>)
      modifies this`leaseByTaskId, quota
      ensures (State(), e) == ReleaseQuota(old(State()), id)
    {
      hide Release;
      if id !in leaseByTaskId { return Some(NoQuotaLease); }
      var r := quota.ReleaseLease(leaseByTaskId[id]);
      if r.Err? { return Some(QuotaFailed(r.error)); }
      leaseByTaskId := leaseByTaskId - {id};
      return None;
    }

    method SendInputRequired(id: TaskId)
      modifies this`inputNotified, this`inputLog
      ensures State() == NotifyInputRequired(old(State()), id)
    {
      if id in inputNotified { return; }
      inputNotified := inputNotified + {id};
      inputLog := inputLog + [id];
    }

    method SendTerminal(id: TaskId)
      modifies this`terminalNotified, this`terminalLog
      ensures State() == NotifyTerminal(old(State()), id)
    {
      if id in terminalNotified { return; }
      terminalNotified := terminalNotified + {id};
      terminalLog := terminalLog + [id];
    }

    /** The durable write of an accepted state: first insert or compare-and-replace. */
    method StoreAccepted(t: Task, next: Task, reference: Option<Reference>, io: Io) returns (e: Option<StoreError>)
      modifies store
      ensures var written := WriteAccepted(old(State()), t, next, reference, io);
              && e == (if written.Err? then Some(written.error) else None)
              && store.State() == (if written.Err? then old(store.State()) else written.value)
    {
      hide Memory.Insert, Memory.Replace;
      if io.goodReads < 2 || !io.write { return Some(Unavailable); }
      var durable := Memory.Get(store.State(), t.source.sessionId, t.taskId);
      if durable.None? {
        InsertErrorKeeps(store.State(), next, reference);
        var inserted := store.InsertTask(next, reference);
        return if inserted.Err? then Some(inserted.error) else None;
      }
      ReplaceErrorKeeps(store.State(), durable.value, next, reference);
      var replaced := store.ReplaceTask(durable.value, next, reference);
      return if replaced.Err? then Some(replaced.error) else None;
    }

    method ReplaceAcceptedTask(t: Task, u: Update, reference: Option<Reference>, now: int, io: Io)
      returns (result: Result<Task, TaskError>)
      modifies this, store, quota
      ensures (State(), result) == ReplaceAccepted(old(State()), t, u, reference, now, io)
    {
      hide WriteAccepted, ReleaseQuota, NotifyTerminal, NotifyInputRequired, Terminal;
      if u.payload.BadPayload? { return Err(InvalidPayload); }
      var payload := if u.payload.KeepPayload? then t.payload else u.payload.payload;
      var message := if u.statusMessage.Some? then u.statusMessage else t.statusMessage;
      var next := t.(state := u.state, payload := payload, statusMessage := message, updatedAt := Instant(now));
      var ref := reference;
      if ref.None? && t.taskId in uncertainReferenceByTaskId { ref := Some(uncertainReferenceByTaskId[t.taskId]); }
      var failed := StoreAccepted(t, next, ref, io);
      if failed.Some? { return Err(Persistence(StoreFailed(failed.value))); }
      var e := FinishAccepted(t, next);
      if e.Some? { return Err(e.value); }
      return Ok(next);
    }

    method FinishAccepted(t: Task, next: Task) returns (e: Option<TaskError>)
      modifies this, quota
      ensures (State(), e) == AfterAccepted(old(State()), t, next)
    {
      hide ReleaseQuota, NotifyTerminal, NotifyInputRequired, Terminal;
      uncertainByTaskId := uncertainByTaskId - {t.taskId};
      uncertainTaskIdBySource := uncertainTaskIdBySource - {t.source};
      uncertainReferenceByTaskId := uncertainReferenceByTaskId - {t.taskId};
      if next.state != InputRequired {
        inputNotified := inputNotified - {t.taskId};
      } else if t.state != InputRequired || next.taskId !in inputNotified {
        SendInputRequired(t.taskId);
      }
      if !Terminal(t.state) && Terminal(next.state) {
        e := ReleaseTaskQuota(t.taskId);
        if e.Some? { return e; }
        SendTerminal(t.taskId);
      }
      return None;
    }

    method AcceptTask(sessionId: string, id: TaskId, u: Update, reference: Option<Reference>, now: int, io: Io)
      returns (result: Result<Task, TaskError>)
      modifies this, store, quota
      ensures (State(), result) == Accept(old(State()), sessionId, id, u, reference, now, io)
    {
      hide ReplaceAccepted;
      var found := RequireTask(State(), sessionId, id, io.goodReads > 0);
      if found.Err? { return Err(Persistence(found.error)); }
      if found.value.state != Submitting { return Err(NotAwaitingAcceptance); }
      if u.state == Submitting { return Err(UnsupportedState); }
      result := ReplaceAcceptedTask(found.value, u, reference, now, io);
    }

    method UpdateAcceptedTask(sessionId: string, id: TaskId, u: Update, reference: Option<Reference>, now: int, io: Io)
      returns (result: Result<Task, TaskError>)
      modifies this, store, quota
      ensures (State(), result) == UpdateAccepted(old(State()), sessionId, id, u, reference, now, io)
    {
      hide ReplaceAccepted;
      var found := RequireTask(State(), sessionId, id, io.goodReads > 0);
      if found.Err? { return Err(Persistence(found.error)); }
      var t := found.value;
      if t.state == Submitting { return Err(NotAccepted); }
      if u.state == Submitting { return Err(UnsupportedState); }
      if u.payload.BadPayload? { return Err(InvalidPayload); }
      if Terminal(t.state) {
        var payload := if u.payload.KeepPayload? then t.payload else u.payload.payload;
        var message := if u.statusMessage.None? then t.statusMessage else u.statusMessage;
        if t.state == u.state && t.statusMessage == message && t.payload == payload { return Ok(t); }
        return Err(TerminalConflict);
      }
      result := ReplaceAcceptedTask(t, u, reference, now, io);
    }

    method RejectTaskBeforeAcceptance(sessionId: string, id: TaskId, message: string, now: int, io: Io)
      returns (result: Result<Task, TaskError>)
      modifies this, store, quota
      ensures (State(), result) == RejectBeforeAcceptance(old(State()), sessionId, id, message, now, io)
    {
      hide Memory.Replace, ReleaseQuota;
      var found := RequireTask(State(), sessionId, id, io.goodReads > 0);
      if found.Err? { return Err(found.error); }
      var t := found.value;
      if t.state != Submitting { return Err(NotAwaitingAcceptance); }
      if !io.write { return Err(UNREADABLE); }
      var rejected := t.(state := Rejected, statusMessage := Some(message), updatedAt := Instant(now));
      ReplaceErrorKeeps(store.State(), t, rejected, None);
      var replaced := store.ReplaceTask(t, rejected, None);
      if replaced.Err? { return Err(StoreFailed(replaced.error)); }
      var e := ReleaseTaskQuota(id);
      if e.Some? { return Err(e.value); }
      return Ok(rejected);
    }
  }

  lemma VerdictNeedsLease(s: Service, id: TaskId, r: Request, message: Option<string>, known: Option<Task>, lease: Option<Lease>,
                          now: int, io: Io)
    ensures var v := RetainVerdict(s, id, r, message, known, lease, now, io);
            v.Ok? ==> v.value.taskId in s.leases || lease.Some?
  {
    hide BlankRequest, Blank, RetainMismatch, RetainExisting, RetainDurable, KnownMatches;
  }

  /** A store call that throws, or that finds the same task again, leaves the store as it was. */
  lemma InsertErrorKeeps(s: Memory.Store, t: Task, reference: Option<Reference>)
    ensures Memory.Insert(s, t, reference).1.Err? ==> Memory.Insert(s, t, reference).0 == s
  {
  }

  lemma InsertDuplicateKeeps(s: Memory.Store, t: Task, reference: Option<Reference>)
    ensures var (s', r) := Memory.Insert(s, t, reference);
            r.Ok? && r.value.status == Duplicate ==> s' == s
  {
  }

  lemma ReplaceErrorKeeps(s: Memory.Store, expected: Task, next: Task, reference: Option<Reference>)
    ensures Memory.Replace(s, expected, next, reference).1.Err? ==> Memory.Replace(s, expected, next, reference).0 == s
  {
  }

  lemma {:induction false} RestoreStops(q: Quota, tasks: map<TaskId, Task>, order: seq<TaskId>, n: nat)
    requires n <= |order| && RestoreAll(q, map[], tasks, order[..n]).Err?
    ensures RestoreAll(q, map[], tasks, order) == RestoreAll(q, map[], tasks, order[..n])
    decreases |order|
  {
    if n == |order| {
      assert order[..n] == order;
    } else {
      var m := |order| - 1;
      assert order[..m][..n] == order[..n];
      RestoreStops(q, tasks, order[..m], n);
    }
  }
}
