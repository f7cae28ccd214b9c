/** The process-local Task store: four maps, two of them indexes over the other two. */
module InMemoryTaskStore {
  import opened Common
  import opened AsyncTaskFacts

  datatype Store = Store(
    tasks: map<TaskId, Task>,
    bySource: map<Source, TaskId>,
    references: map<TaskId, Reference>,
    byExternal: map<External, TaskId>)

  const EMPTY := Store(map[], map[], map[], map[])

  function Get(s: Store, sessionId: string, id: TaskId): Option<Task> {
    if id in s.tasks && s.tasks[id].source.sessionId == sessionId then Some(s.tasks[id]) else None
  }

  function GetBySource(s: Store, src: Source): Option<Task> {
    if src in s.bySource && s.bySource[src] in s.tasks then Some(s.tasks[s.bySource[src]]) else None
  }

  predicate ReferenceAgrees(s: Store, id: TaskId, ref: Option<Reference>) {
    ref.Some? && id in s.references ==> s.references[id] == ref.value
  }

  predicate ExternalAvailable(s: Store, id: TaskId, ref: Option<Reference>) {
    ref.Some? && ref.value.externalTaskId.Some? && ExternalOf(ref.value) in s.byExternal ==>
      s.byExternal[ExternalOf(ref.value)] == id
  }

  /** Keeps the first reference of a task and indexes it when it names an external task. */
  function StoreReference(s: Store, id: TaskId, ref: Option<Reference>): Store {
    if ref.None? || id in s.references then s
    else s.(
      references := s.references[id := ref.value],
      byExternal := if ref.value.externalTaskId.None? then s.byExternal
                    else s.byExternal[ExternalOf(ref.value) := id])
  }

  /** What an insert would do: refuse, recognise a repeated fact, or add the task. */
  function InsertVerdict(s: Store, t: Task, ref: Option<Reference>): Result<InsertStatus, StoreError> {
    if !ValidTask(t) then Err(InvalidTask)
    else if !ValidOptionalReference(ref) then Err(InvalidReference)
    else if t.taskId in s.tasks || t.source in s.bySource then
      var existing := if t.taskId in s.tasks then Some(s.tasks[t.taskId]) else GetBySource(s, t.source);
      if existing != Some(t) then Err(TaskConflict)
      else if !ReferenceAgrees(s, t.taskId, ref) then Err(ReferenceConflict)
      else Ok(Duplicate)
    else if !ExternalAvailable(s, t.taskId, ref) then Err(ExternalConflict)
    else Ok(Inserted)
  }

  function Insert(s: Store, t: Task, ref: Option<Reference>): (Store, Result<InsertResult, StoreError>) {
    match InsertVerdict(s, t, ref)
    case Err(e) => (s, Err(e))
    case Ok(Duplicate) => (s, Ok(InsertResult(Duplicate, t)))
    case Ok(Inserted) => (StoreReference(AddTask(s, t), t.taskId, ref), Ok(InsertResult(Inserted, t)))
  }

  function AddTask(s: Store, t: Task): Store {
    s.(tasks := s.tasks[t.taskId := t], bySource := s.bySource[t.source := t.taskId])
  }

  function ReplaceRefusal(s: Store, expected: Task, next: Task, ref: Option<Reference>): Option<StoreError> {
    if !ValidTask(expected) || !ValidTask(next) then Some(InvalidTask)
    else if expected.taskId !in s.tasks || s.tasks[expected.taskId] != expected then Some(ReplaceConflict)
    else if IdentityOf(expected) != IdentityOf(next) then Some(IdentityChanged)
    else if !ValidOptionalReference(ref) then Some(InvalidReference)
    else if !ReferenceAgrees(s, next.taskId, ref) then Some(ReferenceConflict)
    else if !ExternalAvailable(s, next.taskId, ref) then Some(ExternalConflict)
    else None
  }

  function WriteTask(s: Store, next: Task): Store {
    s.(tasks := s.tasks[next.taskId := next])
  }

  function Replace(s: Store, expected: Task, next: Task, ref: Option<Reference>): (Store, Result<Task, StoreError>) {
    match ReplaceRefusal(s, expected, next, ref)
    case Some(e) => (s, Err(e))
    case None => (StoreReference(WriteTask(s, next), next.taskId, ref), Ok(next))
  }

  function RecoverTask(t: Task, updatedAt: Time, message: string): Task {
    if Terminal(t.state) then t
    else t.(state := Unknown, statusMessage := Some(message), updatedAt := updatedAt)
  }

  function NonTerminal(tasks: map<TaskId, Task>): map<TaskId, Task> {
    map id | id in tasks && !Terminal(tasks[id].state) :: tasks[id]
  }

  function RecoverNonTerminal(s: Store, updatedAt: Time, message: string)
    : (Store, Result<map<TaskId, Task>, StoreError>)
  {
    if !updatedAt.Instant? then (s, Err(InvalidRecovery))
    else
      var s' := s.(tasks := map id | id in s.tasks :: RecoverTask(s.tasks[id], updatedAt, message));
      (s', Ok(NonTerminal(s'.tasks)))
  }

  // ---------------------------------------------------------------- the indexes are exact

  ghost predicate TasksIndexed(s: Store) {
    && (forall id | id in s.tasks :: s.tasks[id].taskId == id && ValidTask(s.tasks[id]))
    && (forall id | id in s.tasks :: s.tasks[id].source in s.bySource && s.bySource[s.tasks[id].source] == id)
    && (forall src | src in s.bySource :: s.bySource[src] in s.tasks && s.tasks[s.bySource[src]].source == src)
  }

  ghost predicate Indexed(s: Store) {
    TasksIndexed(s) && ReferencesIndexed(s)
  }

  ghost predicate ReferencesIndexed(s: Store) {
    && (forall id | id in s.references :: id in s.tasks && ValidReference(s.references[id]))
    && (forall id | id in s.references && s.references[id].externalTaskId.Some? ::
          ExternalOf(s.references[id]) in s.byExternal && s.byExternal[ExternalOf(s.references[id])] == id)
    && (forall e | e in s.byExternal ::
          s.byExternal[e] in s.references && s.references[s.byExternal[e]].externalTaskId.Some?
          && ExternalOf(s.references[s.byExternal[e]]) == e)
  }

  datatype Op =
    | InsertOp(task: Task, reference: Option<Reference>)
    | ReplaceOp(expected: Task, next: Task, reference: Option<Reference>)
    | RecoverOp(updatedAt: Time, message: string)

  datatype OpResult =
    | InsertDone(inserted: InsertResult)
    | ReplaceDone(task: Task)
    | RecoverDone(tasks: map<TaskId, Task>)
    | Refused

  function Apply(s: Store, op: Op): (Store, OpResult) {
    match op
    case InsertOp(t, ref) =>
      var (s', r) := Insert(s, t, ref); (s', if r.Ok? then InsertDone(r.value) else Refused)
    case ReplaceOp(e, n, ref) =>
      var (s', r) := Replace(s, e, n, ref); (s', if r.Ok? then ReplaceDone(r.value) else Refused)
    case RecoverOp(at, msg) =>
      var (s', r) := RecoverNonTerminal(s, at, msg); (s', if r.Ok? then RecoverDone(r.value) else Refused)
  }

  lemma StoreReferenceIndexed(s: Store, id: TaskId, ref: Option<Reference>)
    requires Indexed(s) && id in s.tasks && ValidOptionalReference(ref) && ExternalAvailable(s, id, ref)
    ensures Indexed(StoreReference(s, id, ref))
  {
    hide ValidReference, ValidTask;
  }

  lemma AddTaskIndexed(s: Store, t: Task)
    requires Indexed(s) && ValidTask(t) && t.taskId !in s.tasks && t.source !in s.bySource
    ensures Indexed(AddTask(s, t))
  {
    hide ValidTask, ValidReference;
  }

  lemma InsertIndexed(s: Store, t: Task, ref: Option<Reference>)
    requires Indexed(s)
    ensures Indexed(Insert(s, t, ref).0)
  {
    hide Indexed, ValidTask, ValidOptionalReference;
    if Insert(s, t, ref).0 != s {
      AddTaskIndexed(s, t);
      StoreReferenceIndexed(AddTask(s, t), t.taskId, ref);
    }
  }

  lemma WriteTaskIndexed(s: Store, next: Task)
    requires Indexed(s) && ValidTask(next) && next.taskId in s.tasks && IdentityOf(next) == IdentityOf(s.tasks[next.taskId])
    ensures Indexed(WriteTask(s, next))
  {
    hide ValidTask, ValidReference;
    assert next.source == s.tasks[next.taskId].source;
  }

  lemma ReplaceIndexed(s: Store, expected: Task, next: Task, ref: Option<Reference>)
    requires Indexed(s)
    ensures Indexed(Replace(s, expected, next, ref).0)
  {
    hide Indexed, ValidTask, ValidOptionalReference;
    if Replace(s, expected, next, ref).1.Ok? {
      WriteTaskIndexed(s, next);
      StoreReferenceIndexed(WriteTask(s, next), next.taskId, ref);
    }
  }

  lemma RecoverTaskValid(t: Task, updatedAt: Time, message: string)
    requires ValidTask(t) && updatedAt.Instant?
    ensures ValidTask(RecoverTask(t, updatedAt, message))
    ensures IdentityOf(RecoverTask(t, updatedAt, message)) == IdentityOf(t)
  {
  }

  lemma RecoverIndexed(s: Store, updatedAt: Time, message: string)
    requires Indexed(s)
    ensures Indexed(RecoverNonTerminal(s, updatedAt, message).0)
  {
    hide ValidTask, ValidReference, RecoverTask;
    var s' := RecoverNonTerminal(s, updatedAt, message).0;
    if updatedAt.Instant? {
      forall id | id in s.tasks
        ensures s'.tasks[id].taskId == id && ValidTask(s'.tasks[id]) && s'.tasks[id].source == s.tasks[id].source
      {
        RecoverTaskValid(s.tasks[id], updatedAt, message);
        assert IdentityOf(s'.tasks[id]) == IdentityOf(s.tasks[id]);
      }
    }
  }

  lemma ApplyIndexed(s: Store, op: Op)
    requires Indexed(s)
    ensures Indexed(Apply(s, op).0)
  {
    match op
    case InsertOp(t, ref) => InsertIndexed(s, t, ref);
    case ReplaceOp(e, n, ref) => ReplaceIndexed(s, e, n, ref);
    case RecoverOp(at, msg) => RecoverIndexed(s, at, msg);
  }

  /** No operation drops a task, changes its identity, or moves or drops a reference. */
  ghost predicate Extends(s: Store, s': Store) {
    && (forall id | id in s.tasks :: id in s'.tasks && IdentityOf(s'.tasks[id]) == IdentityOf(s.tasks[id]))
    && (forall id | id in s.references :: id in s'.references && s'.references[id] == s.references[id])
    && (forall e | e in s.byExternal :: e in s'.byExternal && s'.byExternal[e] == s.byExternal[e])
    && (forall src | src in s.bySource :: src in s'.bySource && s'.bySource[src] == s.bySource[src])
  }

  lemma StoreReferenceExtends(s: Store, id: TaskId, ref: Option<Reference>)
    requires ExternalAvailable(s, id, ref)
    ensures Extends(s, StoreReference(s, id, ref))
  {
  }

  lemma InsertExtends(s: Store, t: Task, ref: Option<Reference>)
    ensures Extends(s, Insert(s, t, ref).0)
  {
    hide ValidTask, ValidOptionalReference;
    if Insert(s, t, ref).0 != s {
      assert Extends(s, AddTask(s, t));
      assert ExternalAvailable(AddTask(s, t), t.taskId, ref);
      StoreReferenceExtends(AddTask(s, t), t.taskId, ref);
      ExtendsTransitive(s, AddTask(s, t), Insert(s, t, ref).0);
    }
  }

  lemma WriteTaskExtends(s: Store, next: Task)
    requires next.taskId in s.tasks && IdentityOf(next) == IdentityOf(s.tasks[next.taskId])
    ensures Extends(s, WriteTask(s, next))
  {
  }

  lemma ReplaceExtends(s: Store, expected: Task, next: Task, ref: Option<Reference>)
    requires Indexed(s)
    ensures Extends(s, Replace(s, expected, next, ref).0)
  {
    hide ValidTask, ValidOptionalReference, Indexed, Extends;
    ExtendsReflexive(s);
    if Replace(s, expected, next, ref).1.Ok? {
      var written := WriteTask(s, next);
      WriteTaskExtends(s, next);
      StoreReferenceExtends(written, next.taskId, ref);
      ExtendsTransitive(s, written, StoreReference(written, next.taskId, ref));
    }
  }

  lemma ApplyExtends(s: Store, op: Op)
    requires Indexed(s)
    ensures Extends(s, Apply(s, op).0)
  {
    match op
    case InsertOp(t, ref) => hide Extends, Indexed, Insert; InsertExtends(s, t, ref);
    case ReplaceOp(e, n, ref) => hide Extends, Indexed, Replace; ReplaceExtends(s, e, n, ref);
    case RecoverOp(at, msg) => hide ValidTask, Indexed;
  }

  /** No two tasks share a source, and no two share an external task. */
  ghost predicate Injective(s: Store) {
    && (forall id, id' | id in s.tasks && id' in s.tasks && s.tasks[id].source == s.tasks[id'].source :: id == id')
    && (forall id, id' | id in s.references && id' in s.references
          && s.references[id].externalTaskId.Some? && s.references[id'].externalTaskId.Some?
          && ExternalOf(s.references[id]) == ExternalOf(s.references[id']) :: id == id')
  }

  lemma IndexesAreInjective(s: Store)
    requires Indexed(s)
    ensures Injective(s)
  {
  }

  lemma ExtendsReflexive(s: Store)
    ensures Extends(s, s)
  {
  }

  lemma ExtendsTransitive(s: Store, s': Store, s'': Store)
    requires Extends(s, s') && Extends(s', s'')
    ensures Extends(s, s'')
  {
  }

  function Run(s: Store, ops: seq<Op>): Store {
    if ops == [] then s else Apply(Run(s, ops[..|ops| - 1]), ops[|ops| - 1]).0
  }

  lemma {:induction false} RunIndexed(ops: seq<Op>)
    ensures Indexed(Run(EMPTY, ops))
  {
    if ops != [] {
      RunIndexed(ops[..|ops| - 1]);
      ApplyIndexed(Run(EMPTY, ops[..|ops| - 1]), ops[|ops| - 1]);
    }
  }

  /**
   Over every run from the empty store, every task keeps its identity and its first reference
   from the point it appears, and no two tasks ever share a source or an external task.
   */
  lemma {:induction false} IdentityIsStable(before: seq<Op>, after: seq<Op>)
    ensures var s, s' := Run(EMPTY, before), Run(EMPTY, before + after);
            Extends(s, s') && Injective(s')
    decreases after
  {
    hide Extends, Indexed, Injective, Apply;
    var s, s' := Run(EMPTY, before), Run(EMPTY, before + after);
    RunIndexed(before + after);
    IndexesAreInjective(s');
    if after == [] {
      assert before + after == before;
      ExtendsReflexive(s);
    } else {
      var n := |after| - 1;
      IdentityIsStable(before, after[..n]);
      var all := before + after;
      assert all[..|all| - 1] == before + after[..n] && all[|all| - 1] == after[n];
      var m := Run(EMPTY, before + after[..n]);
      RunIndexed(before + after[..n]);
      ApplyExtends(m, after[n]);
      ExtendsTransitive(s, m, s');
    }
  }

  // ---------------------------------------------------------------- the store object

  class InMemoryAsyncToolTaskStore {
    var tasks: map<TaskId, Task>
    var taskIdBySource: map<Source, TaskId>
    var privateReferences: map<TaskId, Reference>
    var taskIdByExternalReference: map<External, TaskId>

    function State(): Store
      reads this
    {
      Store(tasks, taskIdBySource, privateReferences, taskIdByExternalReference)
    }

    constructor ()
      ensures State() == EMPTY
    {
      tasks, taskIdBySource, privateReferences, taskIdByExternalReference := map[], map[], map[], map[];
    }

    method InsertTask(task: Task, reference: Option<Reference>) returns (r: Result<InsertResult, StoreError>)
      modifies this
      ensures (State(), r) == Insert(old(State()), task, reference)
    {
      if !ValidTask(task) { return Err(InvalidTask); }
      if !ValidOptionalReference(reference) { return Err(InvalidReference); }
      if task.taskId in tasks || task.source in taskIdBySource {
        var existing: Option<Task>;
        if task.taskId in tasks {
          existing := Some(tasks[task.taskId]);
        } else if taskIdBySource[task.source] in tasks {
          existing := Some(tasks[taskIdBySource[task.source]]);
        } else {
          existing := None;
        }
        if existing.None? || existing.value != task { return Err(TaskConflict); }
        if !ReferenceAgrees(State(), task.taskId, reference) { return Err(ReferenceConflict); }
        return Ok(InsertResult(Duplicate, task));
      }
      if !ExternalAvailable(State(), task.taskId, reference) { return Err(ExternalConflict); }
      tasks := tasks[task.taskId := task];
      taskIdBySource := taskIdBySource[task.source := task.taskId];
      StorePrivateReference(task.taskId, reference);
      return Ok(InsertResult(Inserted, task));
    }

    method ReplaceTask(expected: Task, next: Task, reference: Option<Reference>) returns (r: Result<Task, StoreError>)
      modifies this
      ensures (State(), r) == Replace(old(State()), expected, next, reference)
    {
      if !ValidTask(expected) || !ValidTask(next) { return Err(InvalidTask); }
      if expected.taskId !in tasks || tasks[expected.taskId] != expected { return Err(ReplaceConflict); }
      if IdentityOf(expected) != IdentityOf(next) { return Err(IdentityChanged); }
      if !ValidOptionalReference(reference) { return Err(InvalidReference); }
      if !ReferenceAgrees(State(), next.taskId, reference) { return Err(ReferenceConflict); }
      if !ExternalAvailable(State(), next.taskId, reference) { return Err(ExternalConflict); }
      tasks := tasks[next.taskId := next];
      StorePrivateReference(next.taskId, reference);
      return Ok(next);
    }

    method StorePrivateReference(id: TaskId, candidate: Option<Reference>)
      modifies this`privateReferences, this`taskIdByExternalReference
      ensures State() == StoreReference(old(State()), id, candidate)
    {
      if candidate.None? { return; }
      if id !in privateReferences {
        privateReferences := privateReferences[id := candidate.value];
        if candidate.value.externalTaskId.Some? {
          taskIdByExternalReference := taskIdByExternalReference[ExternalOf(candidate.value) := id];
        }
      }
    }

    /** Rewrites the non-terminal tasks one after the other, as the source's loop does. */
    method RecoverTasks(updatedAt: Time, message: string) returns (r: Result<map<TaskId, Task>, StoreError>)
      modifies this
      ensures (State(), r) == RecoverNonTerminal(old(State()), updatedAt, message)
    {
      if !updatedAt.Instant? { return Err(InvalidRecovery); }
      var pending := tasks.Keys;
      while pending != {}
        invariant tasks.Keys == old(tasks).Keys && pending <= tasks.Keys
        invariant forall id | id in tasks ::
                    tasks[id] == if id in pending then old(tasks)[id] else RecoverTask(old(tasks)[id], updatedAt, message)
        invariant taskIdBySource == old(taskIdBySource) && privateReferences == old(privateReferences)
        invariant taskIdByExternalReference == old(taskIdByExternalReference)
        decreases |pending|
      {
        var id :| id in pending;
        pending := pending - {id};
        if !Terminal(tasks[id].state) {
          tasks := tasks[id := tasks[id].(state := Unknown, statusMessage := Some(message), updatedAt := updatedAt)];
        }
      }
      assert tasks == RecoverNonTerminal(old(State()), updatedAt, message).0.tasks;
      return Ok(NonTerminal(tasks));
    }
  }
}
