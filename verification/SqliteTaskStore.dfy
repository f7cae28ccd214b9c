/**
 The SQLite Task store: two tables, states and pools as text columns, a source index that is a
 query, and an UPDATE that writes only four columns. It refines the in-memory store.
 */
module SqliteTaskStore {
  import opened Common
  import opened SessionTaskQuota
  import opened AsyncTaskFacts
  import Memory = InMemoryTaskStore

  /** One line of `async_tool_tasks`, whose primary key is the task id. */
  datatype Row = Row(
    sessionId: string, sourceRunId: string, sourceToolCallId: string, kind: string,
    quotaPool: string, toolName: string, state: string, payloadJson: Payload,
    statusMessage: Option<string>, createdAt: Time, updatedAt: Time)

  datatype Database = Database(rows: map<TaskId, Row>, references: map<TaskId, Reference>)

  const EMPTY := Database(map[], map[])

  function StateText(state: TaskState): string {
    match state
    case Submitting => "submitting"
    case Unknown => "unknown"
    case Submitted => "submitted"
    case Working => "working"
    case InputRequired => "input-required"
    case AuthRequired => "auth-required"
    case Completed => "completed"
    case Failed => "failed"
    case Canceled => "canceled"
    case Rejected => "rejected"
  }

  function ParseState(text: string): Option<TaskState> {
    if text == "submitting" then Some(Submitting)
    else if text == "unknown" then Some(Unknown)
    else if text == "submitted" then Some(Submitted)
    else if text == "working" then Some(Working)
    else if text == "input-required" then Some(InputRequired)
    else if text == "auth-required" then Some(AuthRequired)
    else if text == "completed" then Some(Completed)
    else if text == "failed" then Some(Failed)
    else if text == "canceled" then Some(Canceled)
    else if text == "rejected" then Some(Rejected)
    else None
  }

  function PoolText(pool: Pool): string {
    if pool == A2A then "a2a" else "async-tool"
  }

  function ParsePool(text: string): Option<Pool> {
    if text == "a2a" then Some(A2A) else if text == "async-tool" then Some(AsyncTool) else None
  }

  lemma StateTextRoundTrip(state: TaskState)
    ensures ParseState(StateText(state)) == Some(state)
    ensures Terminal(state) <==> StateText(state) in {"completed", "failed", "canceled", "rejected"}
  {
    match state
    case Submitting => assert |StateText(state)| == 10;
    case Unknown => assert |StateText(state)| == 7;
    case Submitted => assert |StateText(state)| == 9 && StateText(state)[0] == 's';
    case Working => assert |StateText(state)| == 7 && StateText(state)[0] == 'w';
    case InputRequired => assert |StateText(state)| == 14;
    case AuthRequired => assert |StateText(state)| == 13;
    case Completed => assert |StateText(state)| == 9 && StateText(state)[0] == 'c';
    case Failed => assert |StateText(state)| == 6;
    case Canceled => assert |StateText(state)| == 8 && StateText(state)[0] == 'c';
    case Rejected => assert |StateText(state)| == 8 && StateText(state)[0] == 'r';
  }

  function RowOf(t: Task): Row {
    Row(t.source.sessionId, t.source.runId, t.source.toolCallId, t.kind, PoolText(t.pool), t.toolName,
        StateText(t.state), t.payload, t.statusMessage, t.createdAt, t.updatedAt)
  }

  function RowSource(row: Row): Source {
    Source(row.sessionId, row.sourceRunId, row.sourceToolCallId)
  }

  /** `parseTask`: rejects unsupported text columns and rows that fail validation. */
  function ParseRow(id: TaskId, row: Row): Result<Task, StoreError> {
    var pool, state := ParsePool(row.quotaPool), ParseState(row.state);
    if pool.None? || state.None? then Err(CorruptRow)
    else
      var t := Task(id, row.kind, pool.value, RowSource(row), row.toolName, row.createdAt,
                    state.value, row.payloadJson, row.updatedAt, row.statusMessage);
      if ValidTask(t) then Ok(t) else Err(CorruptRow)
  }

  lemma RowRoundTrip(t: Task)
    requires ValidTask(t)
    ensures ParseRow(t.taskId, RowOf(t)) == Ok(t)
  {
    hide ValidTask;
    StateTextRoundTrip(t.state);
    hide ParseState, StateText;
    assert |"a2a"| == 3 && |"async-tool"| == 10;
  }

  function FindById(db: Database, id: TaskId): Result<Option<Task>, StoreError> {
    if id !in db.rows then Ok(None)
    else match ParseRow(id, db.rows[id]) case Ok(t) => Ok(Some(t)) case Err(e) => Err(e)
  }

  function SelectBySource(db: Database, src: Source): set<TaskId> {
    set id | id in db.rows && RowSource(db.rows[id]) == src
  }

  ghost function FindBySource(db: Database, src: Source): Result<Option<Task>, StoreError> {
    if SelectBySource(db, src) == {} then Ok(None)
    else
      var id :| id in SelectBySource(db, src);
      match ParseRow(id, db.rows[id]) case Ok(t) => Ok(Some(t)) case Err(e) => Err(e)
  }

  predicate ReferenceAgrees(db: Database, id: TaskId, ref: Option<Reference>) {
    ref.Some? && id in db.references ==> db.references[id] == ref.value
  }

  predicate ExternalAvailable(db: Database, id: TaskId, ref: Option<Reference>) {
    ref.Some? && ref.value.externalTaskId.Some? ==>
      forall other | other in db.references
        && db.references[other].externalTaskId.Some?
        && ExternalOf(db.references[other]) == ExternalOf(ref.value) :: other == id
  }

  function InsertReference(db: Database, id: TaskId, ref: Option<Reference>): Database {
    if ref.None? || id in db.references then db else db.(references := db.references[id := ref.value])
  }

  ghost function InsertVerdict(db: Database, t: Task, ref: Option<Reference>): Result<InsertStatus, StoreError> {
    if !ValidTask(t) then Err(InvalidTask)
    else if !ValidOptionalReference(ref) then Err(InvalidReference)
    else
      var byId, bySource := FindById(db, t.taskId), FindBySource(db, t.source);
      if byId.Err? || bySource.Err? then Err(CorruptRow)
      else if byId.value.Some? || bySource.value.Some? then
        var existing := if byId.value.Some? then byId.value else bySource.value;
        if existing != Some(t) then Err(TaskConflict)
        else if !ReferenceAgrees(db, t.taskId, ref) then Err(ReferenceConflict)
        else Ok(Duplicate)
      else if !ExternalAvailable(db, t.taskId, ref) then Err(ExternalConflict)
      else Ok(Inserted)
  }

  function AddRow(db: Database, t: Task): Database {
    db.(rows := db.rows[t.taskId := RowOf(t)])
  }

  ghost function Insert(db: Database, t: Task, ref: Option<Reference>): (Database, Result<InsertResult, StoreError>) {
    match InsertVerdict(db, t, ref)
    case Err(e) => (db, Err(e))
    case Ok(Duplicate) => (db, Ok(InsertResult(Duplicate, t)))
    case Ok(Inserted) => (InsertReference(AddRow(db, t), t.taskId, ref), Ok(InsertResult(Inserted, t)))
  }

  /** `UPDATE … SET state, payload_json, status_message, updated_at`. */
  function UpdateRow(row: Row, next: Task): Row {
    row.(state := StateText(next.state), payloadJson := next.payload,
         statusMessage := next.statusMessage, updatedAt := next.updatedAt)
  }

  function ReplaceRefusal(db: Database, expected: Task, next: Task, ref: Option<Reference>): Option<StoreError> {
    if !ValidTask(expected) || !ValidTask(next) then Some(InvalidTask)
    else if IdentityOf(expected) != IdentityOf(next) then Some(IdentityChanged)
    else if !ValidOptionalReference(ref) then Some(InvalidReference)
    else
      var current := FindById(db, expected.taskId);
      if current.Err? then Some(CorruptRow)
      else if current.value != Some(expected) then Some(ReplaceConflict)
      else if !ReferenceAgrees(db, next.taskId, ref) then Some(ReferenceConflict)
      else if !ExternalAvailable(db, next.taskId, ref) then Some(ExternalConflict)
      else if next.taskId !in db.rows then Some(ReplaceConflict)
      else None
  }

  function WriteRow(db: Database, next: Task): Database
    requires next.taskId in db.rows
  {
    db.(rows := db.rows[next.taskId := UpdateRow(db.rows[next.taskId], next)])
  }

  function Replace(db: Database, expected: Task, next: Task, ref: Option<Reference>): (Database, Result<Task, StoreError>) {
    match ReplaceRefusal(db, expected, next, ref)
    case Some(e) => (db, Err(e))
    case None => (InsertReference(WriteRow(db, next), next.taskId, ref), Ok(next))
  }

  /** `UPDATE … WHERE state NOT IN ('completed', 'failed', 'canceled', 'rejected')`. */
  function RecoverRow(row: Row, updatedAt: Time, message: string): Row {
    if row.state in {"completed", "failed", "canceled", "rejected"} then row
    else row.(state := "unknown", statusMessage := Some(message), updatedAt := updatedAt)
  }

  predicate Readable(db: Database) {
    forall id | id in db.rows :: ParseRow(id, db.rows[id]).Ok?
  }

  function ListTasks(db: Database): map<TaskId, Task>
    requires Readable(db)
  {
    map id | id in db.rows :: ParseRow(id, db.rows[id]).value
  }

  function RecoverNonTerminal(db: Database, updatedAt: Time, message: string)
    : (Database, Result<map<TaskId, Task>, StoreError>)
  {
    if !updatedAt.Instant? then (db, Err(InvalidRecovery))
    else
      var db' := db.(rows := map id | id in db.rows :: RecoverRow(db.rows[id], updatedAt, message));
      if !Readable(db') then (db, Err(CorruptRow))
      else (db', Ok(Memory.NonTerminal(ListTasks(db'))))
  }

  // ---------------------------------------------------------------- refinement

  function RowsOf(tasks: map<TaskId, Task>): map<TaskId, Row> {
    map id | id in tasks :: RowOf(tasks[id])
  }

  ghost predicate Simulates(db: Database, s: Memory.Store) {
    Memory.Indexed(s) && db.rows == RowsOf(s.tasks) && db.references == s.references
  }

  lemma RowsOfUpdate(tasks: map<TaskId, Task>, t: Task)
    ensures RowsOf(tasks[t.taskId := t]) == RowsOf(tasks)[t.taskId := RowOf(t)]
  {
    hide RowOf;
  }

  lemma FindByIdAgrees(db: Database, s: Memory.Store, id: TaskId)
    requires Simulates(db, s)
    ensures FindById(db, id) == Ok(if id in s.tasks then Some(s.tasks[id]) else None)
  {
    hide ValidTask, ParseRow, RowOf;
    if id in s.tasks { RowRoundTrip(s.tasks[id]); }
  }

  lemma FindBySourceAgrees(db: Database, s: Memory.Store, src: Source)
    requires Simulates(db, s)
    ensures FindBySource(db, src) == Ok(Memory.GetBySource(s, src))
  {
    hide ValidTask, ParseRow;
    var hits := SelectBySource(db, src);
    forall id | id in db.rows ensures RowSource(db.rows[id]) == s.tasks[id].source {}
    if src in s.bySource {
      var id := s.bySource[src];
      assert hits == {id};
      RowRoundTrip(s.tasks[id]);
    } else {
      assert hits == {};
    }
  }

  lemma ExternalAgrees(db: Database, s: Memory.Store, id: TaskId, ref: Option<Reference>)
    requires Simulates(db, s)
    ensures ExternalAvailable(db, id, ref) == Memory.ExternalAvailable(s, id, ref)
    ensures ReferenceAgrees(db, id, ref) == Memory.ReferenceAgrees(s, id, ref)
  {
    hide ValidTask, ValidReference, RowOf, Memory.TasksIndexed;
  }

  lemma ReferenceWriteAgrees(db: Database, s: Memory.Store, id: TaskId, ref: Option<Reference>)
    requires db.references == s.references
    ensures var db', s' := InsertReference(db, id, ref), Memory.StoreReference(s, id, ref);
            db'.references == s'.references && db'.rows == db.rows && s'.tasks == s.tasks
  {
  }

  lemma InsertVerdictAgrees(db: Database, s: Memory.Store, t: Task, ref: Option<Reference>)
    requires Simulates(db, s)
    ensures InsertVerdict(db, t, ref) == Memory.InsertVerdict(s, t, ref)
  {
    hide Simulates, ValidTask, ValidOptionalReference, FindById, FindBySource, Memory.GetBySource;
    hide ExternalAvailable, ReferenceAgrees, Memory.ExternalAvailable, Memory.ReferenceAgrees;
    FindByIdAgrees(db, s, t.taskId);
    FindBySourceAgrees(db, s, t.source);
    ExternalAgrees(db, s, t.taskId, ref);
    BySourceIsDefined(db, s, t.source);
  }

  lemma InsertRefines(db: Database, s: Memory.Store, t: Task, ref: Option<Reference>)
    requires Simulates(db, s)
    ensures var (db', r) := Insert(db, t, ref);
            var (s', r') := Memory.Insert(s, t, ref);
            Simulates(db', s') && r == r'
  {
    InsertVerdictAgrees(db, s, t, ref);
    Memory.InsertIndexed(s, t, ref);
    hide Memory.Indexed, InsertVerdict, Memory.InsertVerdict, RowOf, RowsOf;
    if InsertVerdict(db, t, ref) == Ok(Inserted) {
      RowsOfUpdate(s.tasks, t);
      ReferenceWriteAgrees(AddRow(db, t), Memory.AddTask(s, t), t.taskId, ref);
    }
    hide InsertReference, Memory.StoreReference;
  }

  lemma BySourceIsDefined(db: Database, s: Memory.Store, src: Source)
    requires Simulates(db, s)
    ensures Memory.GetBySource(s, src).Some? <==> src in s.bySource
  {
    hide ValidTask, ValidReference, RowsOf;
  }

  /** The four-column UPDATE writes the row a full rewrite would, because the identity is fixed. */
  lemma PartialUpdateIsFullReplace(expected: Task, next: Task)
    requires IdentityOf(expected) == IdentityOf(next)
    ensures UpdateRow(RowOf(expected), next) == RowOf(next)
  {
  }

  lemma ReplaceRefusalAgrees(db: Database, s: Memory.Store, expected: Task, next: Task, ref: Option<Reference>)
    requires Simulates(db, s)
    ensures ReplaceRefusal(db, expected, next, ref).Some? <==> Memory.ReplaceRefusal(s, expected, next, ref).Some?
  {
    hide Simulates, ValidTask, ValidOptionalReference, FindById, IdentityOf;
    hide ExternalAvailable, ReferenceAgrees, Memory.ExternalAvailable, Memory.ReferenceAgrees;
    FindByIdAgrees(db, s, expected.taskId);
    ExternalAgrees(db, s, next.taskId, ref);
    RowExists(db, s, expected, next);
  }

  lemma RowExists(db: Database, s: Memory.Store, expected: Task, next: Task)
    requires Simulates(db, s)
    ensures expected.taskId in s.tasks && IdentityOf(expected) == IdentityOf(next) ==> next.taskId in db.rows
  {
    hide Memory.Indexed, RowOf;
  }

  lemma ReplaceRefines(db: Database, s: Memory.Store, expected: Task, next: Task, ref: Option<Reference>)
    requires Simulates(db, s)
    ensures var (db', r) := Replace(db, expected, next, ref);
            var (s', r') := Memory.Replace(s, expected, next, ref);
            Simulates(db', s') && r.Ok? == r'.Ok? && (r.Ok? ==> r == r')
  {
    ReplaceRefusalAgrees(db, s, expected, next, ref);
    Memory.ReplaceIndexed(s, expected, next, ref);
    if ReplaceRefusal(db, expected, next, ref).None? {
      assert expected.taskId == next.taskId && s.tasks[expected.taskId] == expected;
      assert db.rows[next.taskId] == RowOf(expected);
      PartialUpdateIsFullReplace(expected, next);
      RowsOfUpdate(s.tasks, next);
      ReferenceWriteAgrees(WriteRow(db, next), Memory.WriteTask(s, next), next.taskId, ref);
    }
    hide Memory.Indexed, ReplaceRefusal, Memory.ReplaceRefusal, RowOf, RowsOf, UpdateRow, IdentityOf;
    hide InsertReference, Memory.StoreReference;
  }

  lemma RecoverRowAgrees(t: Task, updatedAt: Time, message: string)
    ensures RecoverRow(RowOf(t), updatedAt, message) == RowOf(Memory.RecoverTask(t, updatedAt, message))
  {
    StateTextRoundTrip(t.state);
    hide PoolText, ParseState, Terminal;
    assert StateText(Unknown) == "unknown";
    hide StateText;
  }

  lemma RecoverRefines(db: Database, s: Memory.Store, updatedAt: Time, message: string)
    requires Simulates(db, s)
    ensures var (db', r) := RecoverNonTerminal(db, updatedAt, message);
            var (s', r') := Memory.RecoverNonTerminal(s, updatedAt, message);
            Simulates(db', s') && r == r'
  {
    if updatedAt.Instant? {
      Memory.RecoverIndexed(s, updatedAt, message);
      var s' := Memory.RecoverNonTerminal(s, updatedAt, message).0;
      var db' := db.(rows := map id | id in db.rows :: RecoverRow(db.rows[id], updatedAt, message));
      RecoverRowsAgree(s.tasks, updatedAt, message);
      assert Simulates(db', s') by { hide Memory.Indexed, RecoverRow, Memory.RecoverTask, RowOf; }
      RowsAreReadable(db', s');
      hide Simulates, Readable, ListTasks, RowsOf, RecoverRow, Memory.RecoverTask, Memory.NonTerminal;
    }
  }

  lemma RecoverRowsAgree(tasks: map<TaskId, Task>, updatedAt: Time, message: string)
    ensures (map id | id in RowsOf(tasks) :: RecoverRow(RowsOf(tasks)[id], updatedAt, message))
            == RowsOf(map id | id in tasks :: Memory.RecoverTask(tasks[id], updatedAt, message))
  {
    hide RecoverRow, RowOf, Memory.RecoverTask;
    forall id | id in tasks
      ensures RecoverRow(RowsOf(tasks)[id], updatedAt, message) == RowOf(Memory.RecoverTask(tasks[id], updatedAt, message))
    {
      RecoverRowAgrees(tasks[id], updatedAt, message);
    }
  }

  lemma RowsAreReadable(db: Database, s: Memory.Store)
    requires Simulates(db, s)
    ensures Readable(db) && ListTasks(db) == s.tasks
  {
    hide Memory.Indexed, RowOf, ParseRow;
    forall id | id in db.rows ensures ParseRow(id, db.rows[id]) == Ok(s.tasks[id]) {
      TaskIsValid(s, id);
      RowRoundTrip(s.tasks[id]);
    }
  }

  lemma TaskIsValid(s: Memory.Store, id: TaskId)
    requires Memory.Indexed(s) && id in s.tasks
    ensures ValidTask(s.tasks[id]) && s.tasks[id].taskId == id
  {
    hide ValidTask, ValidReference;
  }

  ghost function Apply(db: Database, op: Memory.Op): (Database, Memory.OpResult) {
    match op
    case InsertOp(t, ref) =>
      var (db', r) := Insert(db, t, ref); (db', if r.Ok? then Memory.InsertDone(r.value) else Memory.Refused)
    case ReplaceOp(e, n, ref) =>
      var (db', r) := Replace(db, e, n, ref); (db', if r.Ok? then Memory.ReplaceDone(r.value) else Memory.Refused)
    case RecoverOp(at, msg) =>
      var (db', r) := RecoverNonTerminal(db, at, msg); (db', if r.Ok? then Memory.RecoverDone(r.value) else Memory.Refused)
  }

  ghost function Run(db: Database, ops: seq<Memory.Op>): Database {
    if ops == [] then db else Apply(Run(db, ops[..|ops| - 1]), ops[|ops| - 1]).0
  }

  lemma ApplyRefines(db: Database, s: Memory.Store, op: Memory.Op)
    requires Simulates(db, s)
    ensures Simulates(Apply(db, op).0, Memory.Apply(s, op).0) && Apply(db, op).1 == Memory.Apply(s, op).1
  {
    hide Simulates, Insert, Replace, RecoverNonTerminal, Memory.Insert, Memory.Replace, Memory.RecoverNonTerminal;
    match op
    case InsertOp(t, ref) => InsertRefines(db, s, t, ref);
    case ReplaceOp(e, n, ref) => ReplaceRefines(db, s, e, n, ref);
    case RecoverOp(at, msg) => RecoverRefines(db, s, at, msg);
  }

  /**
   For every sequence of calls the two stores answer the next call alike, and the tables hold
   exactly the rows of the in-memory tasks.
   */
  lemma {:induction false} StoresAgree(ops: seq<Memory.Op>, next: Memory.Op)
    ensures var db, s := Run(EMPTY, ops), Memory.Run(Memory.EMPTY, ops);
            Simulates(db, s) && Apply(db, next).1 == Memory.Apply(s, next).1
  {
    var db, s := Run(EMPTY, ops), Memory.Run(Memory.EMPTY, ops);
    if ops != [] {
      var n := |ops| - 1;
      StoresAgree(ops[..n], ops[n]);
      ApplyRefines(Run(EMPTY, ops[..n]), Memory.Run(Memory.EMPTY, ops[..n]), ops[n]);
    }
    hide Apply, Memory.Apply, Memory.Indexed;
    assert Simulates(db, s) by { if ops == [] { Memory.RunIndexed([]); } }
    ApplyRefines(db, s, next);
  }

  // ---------------------------------------------------------------- the store object

  class SqliteAsyncToolTaskStore {
    var tasks: map<TaskId, Row>
    var privateReferences: map<TaskId, Reference>

    function State(): Database
      reads this
    {
      Database(tasks, privateReferences)
    }

    constructor ()
      ensures State() == EMPTY
    {
      tasks, privateReferences := map[], map[];
    }

    /** The UNIQUE constraint on the source columns is what makes the query's answer definite. */
    method FindTaskBySource(src: Source) returns (r: Result<Option<Task>, StoreError>)
      requires forall id, id' | id in SelectBySource(State(), src) && id' in SelectBySource(State(), src) :: id == id'
      ensures r == FindBySource(State(), src)
    {
      var hits := SelectBySource(State(), src);
      if hits == {} { return Ok(None); }
      var id :| id in hits;
      var parsed := ParseRow(id, tasks[id]);
      match parsed
      case Ok(t) => return Ok(Some(t));
      case Err(e) => return Err(e);
    }

    method InsertTask(task: Task, reference: Option<Reference>, ghost model: Memory.Store)
      returns (r: Result<InsertResult, StoreError>)
      requires Simulates(State(), model)
      modifies this
      ensures (State(), r) == Insert(old(State()), task, reference)
      ensures Simulates(State(), Memory.Insert(model, task, reference).0) && r == Memory.Insert(model, task, reference).1
    {
      hide Simulates, ParseRow, ValidTask, ValidOptionalReference, RowOf, FindById, FindBySource, SelectBySource;
      hide Memory.Insert, ExternalAvailable, ReferenceAgrees;
      InsertRefines(State(), model, task, reference);
      SourceIsUnique(State(), model, task.source);
      if !ValidTask(task) { return Err(InvalidTask); }
      if !ValidOptionalReference(reference) { return Err(InvalidReference); }
      var byId := FindById(State(), task.taskId);
      var bySource := FindTaskBySource(task.source);
      if byId.Err? || bySource.Err? { return Err(CorruptRow); }
      if byId.value.Some? || bySource.value.Some? {
        var existing := if byId.value.Some? then byId.value.value else bySource.value.value;
        if existing != task { return Err(TaskConflict); }
        if !ReferenceAgrees(State(), task.taskId, reference) { return Err(ReferenceConflict); }
        return Ok(InsertResult(Duplicate, task));
      }
      if !ExternalAvailable(State(), task.taskId, reference) { return Err(ExternalConflict); }
      tasks := tasks[task.taskId := RowOf(task)];
      InsertPrivateReference(task.taskId, reference);
      return Ok(InsertResult(Inserted, task));
    }

    method ReplaceTask(expected: Task, next: Task, reference: Option<Reference>) returns (r: Result<Task, StoreError>)
      modifies this
      ensures (State(), r) == Replace(old(State()), expected, next, reference)
    {
      hide ValidTask, ParseRow, UpdateRow;
      if !ValidTask(expected) || !ValidTask(next) { return Err(InvalidTask); }
      if IdentityOf(expected) != IdentityOf(next) { return Err(IdentityChanged); }
      if !ValidOptionalReference(reference) { return Err(InvalidReference); }
      var current := FindById(State(), expected.taskId);
      if current.Err? { return Err(CorruptRow); }
      if current.value != Some(expected) { return Err(ReplaceConflict); }
      if !ReferenceAgrees(State(), next.taskId, reference) { return Err(ReferenceConflict); }
      if !ExternalAvailable(State(), next.taskId, reference) { return Err(ExternalConflict); }
      if next.taskId !in tasks { return Err(ReplaceConflict); }
      tasks := tasks[next.taskId := UpdateRow(tasks[next.taskId], next)];
      InsertPrivateReference(next.taskId, reference);
      return Ok(next);
    }

    method InsertPrivateReference(id: TaskId, candidate: Option<Reference>)
      modifies this`privateReferences
      ensures State() == InsertReference(old(State()), id, candidate)
    {
      if candidate.Some? && id !in privateReferences {
        privateReferences := privateReferences[id := candidate.value];
      }
    }

    method RecoverTasks(updatedAt: Time, message: string) returns (r: Result<map<TaskId, Task>, StoreError>)
      modifies this
      ensures (State(), r) == RecoverNonTerminal(old(State()), updatedAt, message)
    {
      if !updatedAt.Instant? { return Err(InvalidRecovery); }
      var updated := map id | id in tasks :: RecoverRow(tasks[id], updatedAt, message);
      if !Readable(Database(updated, privateReferences)) { return Err(CorruptRow); }  // ROLLBACK
      tasks := updated;
      return Ok(Memory.NonTerminal(ListTasks(State())));
    }
  }

  lemma SourceIsUnique(db: Database, s: Memory.Store, src: Source)
    requires Simulates(db, s)
    ensures forall id, id' | id in SelectBySource(db, src) && id' in SelectBySource(db, src) :: id == id'
  {
    hide ValidTask, ValidReference;
    forall id | id in db.rows ensures RowSource(db.rows[id]) == s.tasks[id].source {}
  }
}
