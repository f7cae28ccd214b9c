/** The facts of an Async Tool Task that both Task stores and the Task service exchange. */
module AsyncTaskFacts {
  import opened Common
  import opened SessionTaskQuota

  datatype TaskState =
    | Submitting | Unknown | Submitted | Working | InputRequired | AuthRequired
    | Completed | Failed | Canceled | Rejected

  predicate Terminal(state: TaskState) {
    state in {Completed, Failed, Canceled, Rejected}
  }

  type TaskId = string

  /** The (Session, run, tool call) that asked for a Task. */
  datatype Source = Source(sessionId: string, runId: string, toolCallId: string)

  /** A timestamp column: a text that `Date.parse` understands, or one it does not. */
  datatype Time = Instant(millis: int) | Unparseable(text: string)

  /**
   A payload is carried as its canonical JSON text; module CanonicalJson proves that comparing
   those texts decides equality of the JSON objects.
   */
  type Payload = string

  datatype Task = Task(
    taskId: TaskId, kind: string, pool: Pool, source: Source, toolName: string, createdAt: Time,
    state: TaskState, payload: Payload, updatedAt: Time, statusMessage: Option<string>)

  /** Provider reference kept for later reconciliation. */
  datatype Reference = Reference(
    namespace: string, agentId: string, externalTaskId: Option<string>,
    contextId: Option<string>, metadata: Option<Payload>)

  datatype External = External(namespace: string, agentId: string, externalTaskId: string)

  datatype Identity = Identity(
    taskId: TaskId, kind: string, pool: Pool, source: Source, toolName: string, createdAt: Time)

  function IdentityOf(t: Task): Identity {
    Identity(t.taskId, t.kind, t.pool, t.source, t.toolName, t.createdAt)
  }

  function KeyOf(t: Task): QuotaKey {
    QuotaKey(t.source.sessionId, t.pool)
  }

  predicate ValidSource(src: Source) {
    !Blank(src.sessionId) && !Blank(src.runId) && !Blank(src.toolCallId)
  }

  predicate ValidTask(t: Task) {
    && !Blank(t.taskId) && !Blank(t.kind) && ValidSource(t.source) && !Blank(t.toolName)
    && t.createdAt.Instant? && t.updatedAt.Instant?
  }

  predicate ValidReference(r: Reference) {
    && !Blank(r.namespace) && !Blank(r.agentId)
    && (r.externalTaskId.Some? ==> !Blank(r.externalTaskId.value))
    && (r.contextId.Some? ==> !Blank(r.contextId.value))
  }

  predicate ValidOptionalReference(r: Option<Reference>) {
    r.Some? ==> ValidReference(r.value)
  }

  function ExternalOf(r: Reference): (e: External)
    requires r.externalTaskId.Some?
  {
    External(r.namespace, r.agentId, r.externalTaskId.value)
  }

  datatype StoreError =
    | InvalidTask | InvalidReference | InvalidRecovery | TaskConflict | ReferenceConflict
    | ExternalConflict | ReplaceConflict | IdentityChanged | CorruptRow | Unavailable

  datatype InsertStatus = Inserted | Duplicate

  datatype InsertResult = InsertResult(status: InsertStatus, task: Task)
}
