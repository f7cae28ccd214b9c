/**
 Whole runs of the Async Tool Task service: any sequence of calls, store faults, blocking callers
 that take and return handles, and restarts over the same store.
 */
module AsyncTaskRuns {
  import opened Common
  import opened SessionTaskQuota
  import opened AsyncTaskFacts
  import opened AsyncTaskService
  import opened AsyncTaskInvariant
  import Memory = InMemoryTaskStore

  /**
   The running service, the handles of blocking callers, every task id ever created, and the
   error of the last call.
   */
  datatype System = System(service: Service, held: set<Lease>, used: set<TaskId>, error: Option<TaskError>)

  datatype Step =
    | ReserveStep(request: Request, id: TaskId, now: int, io: Io)
    | AdoptStep(id: TaskId, request: Request, message: Option<string>, lease: Lease, reference: Option<Reference>, now: int, io: Io)
    | RetainStep(id: TaskId, request: Request, message: Option<string>, known: Option<Task>, handle: Option<Lease>,
                 reference: Option<Reference>, now: int, io: Io)
    | AcceptStep(sessionId: string, id: TaskId, update: Update, reference: Option<Reference>, now: int, io: Io)
    | UpdateStep(sessionId: string, id: TaskId, update: Update, reference: Option<Reference>, now: int, io: Io)
    | RejectStep(sessionId: string, id: TaskId, text: string, now: int, io: Io)
    | HoldStep(owner: string, pool: Pool)
    | ReleaseHeldStep(lease: Lease)
    | RestartStep(kinds: map<string, Pool>, limits: Limits, order: seq<TaskId>, now: int, io: Io)

  /** Task ids are globally fresh, handles are not forged, and a restart lists the stored tasks. */
  ghost predicate Enabled(w: System, step: Step) {
    match step
    case ReserveStep(_, id, _, _) => id !in w.used
    case AdoptStep(id, _, _, lease, _, _, _) => id !in w.used && lease in w.held
    case RetainStep(id, r, _, known, lease, _, _, _) =>
      HonestRetain(w.service, w.held, id, r, known, lease) && (id in w.used ==> id in Effective(w.service))
    case AcceptStep(_, _, _, _, _, _) => true
    case UpdateStep(_, _, _, _, _, _) => true
    case RejectStep(_, _, _, _, _) => true
    case HoldStep(_, _) => true
    case ReleaseHeldStep(lease) => lease in w.held
    case RestartStep(kinds, _, order, _, _) =>
      KindsOk(kinds) && ListsOnce(order, NonTerminalIds(w.service.store.tasks))
  }

  function ErrorOf<T>(r: Result<T, TaskError>): Option<TaskError> {
    if r.Err? then Some(r.error) else None
  }

  ghost function After<T>(w: System, s: Service, id: TaskId, r: Result<T, TaskError>): System {
    System(s, w.held * LiveLeases(s.quota), w.used + {id}, ErrorOf(r))
  }

  ghost function Perform(w: System, step: Step): System {
    var s := w.service;
    match step
    case ReserveStep(r, id, now, io) => var (s', x) := Reserve(s, r, id, now, io); After(w, s', id, x)
    case AdoptStep(id, r, m, l, ref, now, io) => var (s', x) := Adopt(s, id, r, m, l, ref, now, io); After(w, s', id, x)
    case RetainStep(id, r, m, known, l, ref, now, io) =>
      var (s', x) := RetainUncertain(s, id, r, m, known, l, ref, now, io); After(w, s', id, x)
    case AcceptStep(session, id, u, ref, now, io) => var (s', x) := Accept(s, session, id, u, ref, now, io); After(w, s', id, x)
    case UpdateStep(session, id, u, ref, now, io) =>
      var (s', x) := UpdateAccepted(s, session, id, u, ref, now, io); After(w, s', id, x)
    case RejectStep(session, id, text, now, io) =>
      var (s', x) := RejectBeforeAcceptance(s, session, id, text, now, io); After(w, s', id, x)
    case HoldStep(owner, pool) =>
      (match Acquire(s.quota, owner, pool)
       case (q, Ok(Acquired(lease))) => w.(service := s.(quota := q), held := w.held + {lease}, error := None)
       case _ => w.(error := None))
    case ReleaseHeldStep(lease) =>
      System(DropLease(s, lease), w.held - {lease}, w.used,
            if Release(s.quota, lease).1.Err? then Some(QuotaFailed(Release(s.quota, lease).1.error)) else None)
    case RestartStep(kinds, limits, order, now, io) =>
      // A failed start leaves the process down; only a successful one is a new state.
      (match Restart(kinds, s.store, limits, order, now, io)
       case Err(e) => w.(error := Some(e))
       case Ok(restarted) => System(restarted.(terminalLog := s.terminalLog, inputLog := s.inputLog), {}, w.used, None))
  }

  ghost function Apply(w: System, step: Step): System {
    if Enabled(w, step) then Perform(w, step) else w
  }

  ghost function Run(w: System, steps: seq<Step>): System {
    if steps == [] then w else Apply(Run(w, steps[..|steps| - 1]), steps[|steps| - 1])
  }

  function Begin(kinds: map<string, Pool>, limits: Limits): System {
    System(Fresh(kinds, Memory.EMPTY, limits), {}, {}, None)
  }

  ghost predicate Sound(w: System) {
    && Good(w.service, w.held)
    && Effective(w.service).Keys <= w.used
    && w.service.store.tasks.Keys <= w.used
    && (w.error.Some? ==> !LeakError(w.error.value))
  }

  // ---------------------------------------------------------------- one step

  predicate Announces(step: Step) {
    step.AcceptStep? || step.UpdateStep?
  }

  function ModeOf(step: Step): Mode {
    if Announces(step) then Announcing else if step.RejectStep? then Rejecting else Quiet
  }

  /** What one step does to any one task `id`, told without mentioning how. */
  ghost predicate StepFacts(w: System, w': System, step: Step, id: TaskId) {
    var before, after := Effective(w.service), Effective(w'.service);
    && (IsTerminal(before, id) ==> id in after && after[id] == before[id])
    && Count(w'.service.inputLog, id) == Count(w.service.inputLog, id) + (if NeedsInput(after, id) && !NeedsInput(before, id) then 1 else 0)
    && Count(w'.service.terminalLog, id)
       == Count(w.service.terminalLog, id) + (if Announces(step) && IsTerminal(after, id) && !IsTerminal(before, id) then 1 else 0)
    && (IsTerminal(after, id) && !IsTerminal(before, id) ==> Announces(step) || step.RejectStep?)
  }

  /** A call's effect on its own task settles its effect on every task. */
  lemma MovesFacts(w: System, w': System, step: Step, subject: TaskId, id: TaskId)
    requires Moves(w.service, w'.service, subject, ModeOf(step))
    ensures StepFacts(w, w', step, id)
  {
    hide Effective, Count, Announces;
    if NeedsInput(Effective(w'.service), subject) && !NeedsInput(Effective(w.service), subject) {
      CountAppend(w.service.inputLog, subject, id);
    } else {
      assert w.service.inputLog + [] == w.service.inputLog;
    }
    if Announces(step) && IsTerminal(Effective(w'.service), subject) && !IsTerminal(Effective(w.service), subject) {
      CountAppend(w.service.terminalLog, subject, id);
    } else {
      assert w.service.terminalLog + [] == w.service.terminalLog;
    }
  }

  lemma CallSound<T>(w: System, step: Step, s': Service, id: TaskId, r: Result<T, TaskError>)
    requires Sound(w) && Good(s', w.held * LiveLeases(s'.quota)) && Moves(w.service, s', id, ModeOf(step))
    requires r.Err? ==> !LeakError(r.error)
    ensures Sound(After(w, s', id, r))
    ensures forall x :: StepFacts(w, After(w, s', id, r), step, x)
  {
    hide Good, LeakError, StepFacts, Effective, LiveLeases;
    var w' := After(w, s', id, r);
    forall x ensures StepFacts(w, w', step, x) { hide Moves; MovesFacts(w, w', step, id, x); }
    assert s'.store.tasks.Keys <= w'.used by { KeysUsed(w.service, s', id, ModeOf(step), w.held * LiveLeases(s'.quota)); }
  }

  lemma KeysUsed(s: Service, s': Service, id: TaskId, mode: Mode, held: set<Lease>)
    requires Moves(s, s', id, mode)
    ensures Effective(s').Keys <= Effective(s).Keys + {id}
    ensures s'.store.tasks.Keys <= Effective(s).Keys + {id}
  {
    assert s'.store.tasks.Keys <= Effective(s').Keys;
    hide Effective;
  }

  lemma HeldKept(s: Service, s': Service, held: set<Lease>)
    requires Good(s', held)
    ensures Good(s', held * LiveLeases(s'.quota))
  {
    HeldStays(s', held);
  }

  lemma PerformSound(w: System, step: Step)
    requires Sound(w) && Enabled(w, step)
    ensures Sound(Perform(w, step))
    ensures forall id :: StepFacts(w, Perform(w, step), step, id)
  {
    hide Good, Moves, StepFacts, Effective, HonestRetain, LiveLeases, LeakError, KindsOk, ListsOnce, NonTerminalIds;
    hide Reserve, Adopt, RetainUncertain, Accept, UpdateAccepted, RejectBeforeAcceptance, Restart, Acquire, Release;
    var s := w.service;
    match step
    case ReserveStep(r, id, now, io) =>
      ReserveGood(s, w.held, r, id, now, io);
      var (s', x) := Reserve(s, r, id, now, io);
      HeldKept(s, s', w.held);
      CallSound(w, step, s', id, x);
    case AdoptStep(id, r, m, l, ref, now, io) =>
      AdoptGood(s, w.held, id, r, m, l, ref, now, io);
      var (s', x) := Adopt(s, id, r, m, l, ref, now, io);
      CallSound(w, step, s', id, x);
    case RetainStep(id, r, m, known, l, ref, now, io) =>
      RetainUncertainGood(s, w.held, id, r, m, known, l, ref, now, io);
      var (s', x) := RetainUncertain(s, id, r, m, known, l, ref, now, io);
      CallSound(w, step, s', id, x);
    case AcceptStep(session, id, u, ref, now, io) =>
      AcceptGood(s, w.held, session, id, u, ref, now, io);
      var (s', x) := Accept(s, session, id, u, ref, now, io);
      HeldKept(s, s', w.held);
      CallSound(w, step, s', id, x);
    case UpdateStep(session, id, u, ref, now, io) =>
      UpdateAcceptedGood(s, w.held, session, id, u, ref, now, io);
      var (s', x) := UpdateAccepted(s, session, id, u, ref, now, io);
      HeldKept(s, s', w.held);
      CallSound(w, step, s', id, x);
    case RejectStep(session, id, text, now, io) =>
      RejectGood(s, w.held, session, id, text, now, io);
      var (s', x) := RejectBeforeAcceptance(s, session, id, text, now, io);
      HeldKept(s, s', w.held);
      CallSound(w, step, s', id, x);
    case HoldStep(owner, pool) => HoldSound(w, step);
    case ReleaseHeldStep(lease) => ReleaseHeldSound(w, step);
    case RestartStep(kinds, limits, order, now, io) => RestartSound(w, step);
  }

  lemma SameTasksFacts(w: System, w': System, step: Step)
    requires Effective(w'.service) == Effective(w.service)
    requires w'.service.inputLog == w.service.inputLog && w'.service.terminalLog == w.service.terminalLog
    ensures forall id :: StepFacts(w, w', step, id)
  {
  }

  lemma HoldSound(w: System, step: Step)
    requires Sound(w) && step.HoldStep?
    ensures Sound(Perform(w, step)) && forall id :: StepFacts(w, Perform(w, step), step, id)
  {
    hide Good, StepFacts, AddSlot, LeakError;
    HoldGood(w.service, w.held, QuotaKey(step.owner, step.pool));
    SameTasksFacts(w, Perform(w, step), step);
  }

  lemma ReleaseHeldSound(w: System, step: Step)
    requires Sound(w) && step.ReleaseHeldStep? && step.lease in w.held
    ensures Sound(Perform(w, step)) && forall id :: StepFacts(w, Perform(w, step), step, id)
  {
    hide Good, StepFacts, Release, LeakError;
    ReleaseHeldGood(w.service, w.held, step.lease);
    SameTasksFacts(w, Perform(w, step), step);
  }

  lemma RestartSound(w: System, step: Step)
    requires Sound(w) && step.RestartStep? && Enabled(w, step)
    ensures Sound(Perform(w, step)) && forall id :: StepFacts(w, Perform(w, step), step, id)
  {
    hide StepFacts, Restart, LeakError, Memory.Indexed, Memory.RecoverNonTerminal, KindsOk, ListsOnce, NonTerminalIds;
    hide LeaseOk, NotifyOk, OverlayOk, Consistent, LiveLeases;
    var s := w.service;
    RestartGood(step.kinds, s.store, step.limits, step.order, step.now, step.io);
    match Restart(step.kinds, s.store, step.limits, step.order, step.now, step.io)
    case Err(e) => SameTasksFacts(w, Perform(w, step), step);
    case Ok(restarted) =>
      var w' := Perform(w, step);
      assert Effective(w'.service) == Effective(restarted);
      RestartFacts(w, w', step);
      assert w'.service.store.tasks.Keys <= Effective(w'.service).Keys;
  }

  /** Recovery turns every unfinished durable task into `unknown` and leaves finished ones alone. */
  lemma RestartFacts(w: System, w': System, step: Step)
    requires Sound(w) && step.RestartStep?
    requires Effective(w'.service) == Memory.RecoverNonTerminal(w.service.store, Instant(step.now), "reconciliation-required").0.tasks
    requires w'.service.inputLog == w.service.inputLog && w'.service.terminalLog == w.service.terminalLog
    ensures forall id :: StepFacts(w, w', step, id)
    ensures Effective(w'.service).Keys == w.service.store.tasks.Keys
  {
    hide Memory.Indexed, LeaseOk, NotifyOk, Consistent, LiveLeases, IdentityOf, ValidTask;
    var after := Effective(w'.service);
    forall id ensures StepFacts(w, w', step, id) {
      assert IsTerminal(Effective(w.service), id) ==> id !in w.service.overlay;
      assert id in after ==> after[id] == Memory.RecoverTask(w.service.store.tasks[id], Instant(step.now), "reconciliation-required");
    }
  }

  // ---------------------------------------------------------------- every run

  lemma {:induction false} RunSound(kinds: map<string, Pool>, limits: Limits, steps: seq<Step>)
    requires KindsOk(kinds)
    ensures Sound(Run(Begin(kinds, limits), steps))
  {
    hide Sound, Enabled, Perform;
    if steps == [] {
      BeginSound(kinds, limits);
    } else {
      var n := |steps| - 1;
      RunSound(kinds, limits, steps[..n]);
      var w := Run(Begin(kinds, limits), steps[..n]);
      if Enabled(w, steps[n]) { PerformSound(w, steps[n]); }
    }
  }

  lemma BeginSound(kinds: map<string, Pool>, limits: Limits)
    requires KindsOk(kinds)
    ensures Sound(Begin(kinds, limits))
  {
    EmptyQuota(limits, map[]);
    hide KindsOk, Consistent, LiveLeases;
    assert NonTerminalIds(map[]) == {};
    assert Effective(Begin(kinds, limits).service) == map[];
  }

  /** Tasks of one Session and pool that are not terminal. */
  ghost function UnfinishedOf(s: Service, key: QuotaKey): set<TaskId> {
    set id | id in Effective(s) && !Terminal(Effective(s)[id].state) && KeyOf(Effective(s)[id]) == key
  }

  /**
   Conservation: in every reachable state the active count of each Session and pool is the number
   of its unfinished tasks plus its in-flight blocking calls, and no call ever failed for want of
   a lease or with an inconsistent count.
   */
  lemma LeasesAreConserved(kinds: map<string, Pool>, limits: Limits, steps: seq<Step>, key: QuotaKey)
    requires KindsOk(kinds)
    ensures var w := Run(Begin(kinds, limits), steps);
            && Active(w.service.quota, key) == |UnfinishedOf(w.service, key)| + |WithKey(w.held, key)|
            && (w.error.Some? ==> !LeakError(w.error.value))
  {
    var w := Run(Begin(kinds, limits), steps);
    RunSound(kinds, limits, steps);
    hide Run, Memory.Indexed, OverlayOk, NotifyOk, LeaseOk, LiveLeases, Effective, WithKey, LeakError;
    LeaseCount(Effective(w.service), w.service.leases, LiveLeases(w.service.quota), w.held, key);
  }

  ghost function Entries(w: System, steps: seq<Step>, id: TaskId): nat {
    if steps == [] then 0
    else
      var before, after := Effective(Run(w, steps[..|steps| - 1]).service), Effective(Run(w, steps).service);
      Entries(w, steps[..|steps| - 1], id) + (if NeedsInput(after, id) && !NeedsInput(before, id) then 1 else 0)
  }

  /** How often a step of the given kind made the task terminal. */
  ghost function Finishes(w: System, steps: seq<Step>, id: TaskId, announced: bool): nat {
    if steps == [] then 0
    else
      var before, after := Effective(Run(w, steps[..|steps| - 1]).service), Effective(Run(w, steps).service);
      Finishes(w, steps[..|steps| - 1], id, announced)
      + (if IsTerminal(after, id) && !IsTerminal(before, id) && Announces(steps[|steps| - 1]) == announced then 1 else 0)
  }

  lemma StepHolds(kinds: map<string, Pool>, limits: Limits, steps: seq<Step>, step: Step, id: TaskId)
    requires KindsOk(kinds)
    ensures var w := Run(Begin(kinds, limits), steps);
            StepFacts(w, Apply(w, step), step, id)
  {
    hide Sound, Enabled, Perform, Begin, Run, StepFacts;
    RunSound(kinds, limits, steps);
    var w := Run(Begin(kinds, limits), steps);
    if Enabled(w, step) { PerformSound(w, step); } else { SameTasksFacts(w, w, step); }
  }

  /**
   Notifications are exact over every run with any store faults and restarts: a task's
   input-required notifications are its entries into that state; it becomes terminal at most once;
   the terminal notification is sent exactly when that happened through accept or update, and a
   task that is terminal without one was rejected before acceptance.
   */
  lemma {:induction false} NotificationsAreExact(kinds: map<string, Pool>, limits: Limits, steps: seq<Step>, id: TaskId)
    requires KindsOk(kinds)
    ensures var w0 := Begin(kinds, limits);
            var s := Run(w0, steps).service;
            && Count(s.inputLog, id) == Entries(w0, steps, id)
            && Count(s.terminalLog, id) == Finishes(w0, steps, id, true)
            && Finishes(w0, steps, id, true) + Finishes(w0, steps, id, false) == (if IsTerminal(Effective(s), id) then 1 else 0)
  {
    var w0 := Begin(kinds, limits);
    if steps != [] {
      var n := |steps| - 1;
      NotificationsAreExact(kinds, limits, steps[..n], id);
      StepHolds(kinds, limits, steps[..n], steps[n], id);
      hide Apply, Count, Begin, Effective, Announces;
    }
  }

  /** Terminal states are absorbing: nothing that happens later changes a terminal task. */
  lemma {:induction false} TerminalIsFinal(kinds: map<string, Pool>, limits: Limits, steps: seq<Step>, more: seq<Step>, id: TaskId)
    requires KindsOk(kinds)
    ensures var before := Effective(Run(Begin(kinds, limits), steps).service);
            var after := Effective(Run(Begin(kinds, limits), steps + more).service);
            IsTerminal(before, id) ==> id in after && after[id] == before[id]
  {
    hide Apply, Count, Begin, Effective, Announces;
    if more == [] {
      assert steps + more == steps;
    } else {
      var n := |more| - 1;
      TerminalIsFinal(kinds, limits, steps, more[..n], id);
      var all := steps + more;
      assert all[..|all| - 1] == steps + more[..n] && all[|all| - 1] == more[n];
      StepHolds(kinds, limits, steps + more[..n], more[n], id);
    }
  }

  /**
   Only an admitted call raises a count, by one and never above its limit; a refused call or a
   duplicate leaves every count alone. Recovery alone may exceed the limit.
   */
  lemma AdmissionRespectsLimit(s: Service, held: set<Lease>, r: Request, id: TaskId, now: int, io: Io, key: QuotaKey)
    requires Good(s, held) && id !in Effective(s)
    ensures var (s', result) := Reserve(s, r, id, now, io);
            if result.Ok? && result.value.Reserved? && key == KeyOf(result.value.task)
            then Active(s'.quota, key) == Active(s.quota, key) + 1 <= LimitOf(s.quota.limits, key.pool)
            else Active(s'.quota, key) == Active(s.quota, key)
  {
    hide Good, Effective, Blank, GetBySource, ReserveAdmitted, Active, AddSlot, LimitOf, BlankRequest;
    if !BlankRequest(r) && r.kind in s.kinds && r.payload.Some? && GetBySource(s, r.source, io.goodReads > 0) == Ok(None)
       && Acquire(s.quota, r.source.sessionId, s.kinds[r.kind]).1.Ok?
    {
      AdmittedCounts(s, held, r, r.payload.value, id, now, io, key);
    }
  }

  lemma AdmittedCounts(s: Service, held: set<Lease>, r: Request, payload: Payload, id: TaskId, now: int, io: Io, key: QuotaKey)
    requires Good(s, held) && id !in Effective(s) && r.kind in s.kinds
    ensures var own := QuotaKey(r.source.sessionId, s.kinds[r.kind]);
            var (q, lease) := AddSlot(s.quota, own);
            var (s', result) := ReserveAdmitted(s.(quota := q), r, payload, id, now, io, lease);
            && (result.Ok? && result.value.Reserved? ==> KeyOf(result.value.task) == own)
            && Active(s'.quota, key) == Active(s.quota, key) + (if result.Ok? && result.value.Reserved? && key == own then 1 else 0)
  {
    hide Memory.Insert, Memory.Get, Transfer, Release, AddSlot, Blank, DuplicateResult, Active, Good, Effective;
    var own := QuotaKey(r.source.sessionId, s.kinds[r.kind]);
    var (q, lease) := AddSlot(s.quota, own);
    SlotCounts(s.quota, own, key);
    var task := NewTask(id, r, s.kinds[r.kind], payload, Submitting, now, None);
    assert task.taskId !in s.store.tasks by { DurableIsEffective(s, id); }
    assert KeyOf(task) == own;
    if Memory.Insert(s.store, task, None).1.Ok? { ReserveInserted(s, held, task, q, lease); }
  }

  lemma DurableIsEffective(s: Service, id: TaskId)
    requires id !in Effective(s)
    ensures id !in s.store.tasks
  {
  }

  lemma SlotCounts(q: Quota, own: QuotaKey, key: QuotaKey)
    ensures var (q', lease) := AddSlot(q, own);
            && Active(Transfer(q', lease).0, key) == Active(q, key) + (if key == own then 1 else 0)
            && Active(Release(q', lease).0, key) == Active(q, key)
            && Transfer(q', lease).1.Ok?
  {
  }
}
