/**
 Runs in which a call is overtaken: a remote task is accepted as already finished, its watcher's first
 turn does not settle it, and a cancellation reports another state. The first turn fails because the
 snapshot carried questions, with every store call succeeding, or because the store could not be read
 at that moment. The record follows the cancellation while the task stays as it was accepted.
 */
module AgentCallDisagreement {
  import opened Common
  import opened SessionTaskQuota
  import opened AsyncTaskFacts
  import opened AsyncTaskService
  import opened AsyncTaskInvariant
  import opened AgentCallService
  import opened AgentCallInvariant
  import opened AgentCallAgreement
  import opened AgentCallRuns
  import Memory = InMemoryTaskStore
  import Runs = AgentCallRuns

  /** One submission, the finished snapshot it is accepted with, the store at its first turn, and the snapshot of a cancellation. */
  datatype Case = Case(agentId: string, id: CallId, request: CallRequest, done: Snapshot, first: Io, other: Snapshot)

  const ONE_EACH := Limits(1, 1)
  const GOOD_IO := Io(9, true)

  ghost predicate Named(c: Case) {
    && !Blank(c.agentId) && !Blank(c.id) && ValidSource(c.request.source) && !Blank(c.request.toolName)
    && !Blank(c.done.remoteId) && (c.done.contextId.Some? ==> !Blank(c.done.contextId.value))
  }

  ghost predicate Troublesome(c: Case) {
    && Named(c) && Terminal(c.done.state) && (c.done.questions.Some? || c.first.goodReads == 0)
    && c.other.remoteId == c.done.remoteId && c.other.state != c.done.state
  }

  function TaskOf(c: Case): Task {
    NewTask(c.id, EmptyRequest(c.request), A2A, PayloadOf("[]", None), Submitting, 0, None)
  }

  function RecordOf(c: Case): Record {
    NewRecord(c.request, c.done, false)
  }

  ghost predicate AtStart(h: Hub, c: Case) {
    && h.tasks.store == Memory.Store(map[c.id := TaskOf(c)], map[c.request.source := c.id], map[], map[])
    && h.tasks.overlay == map[] && KIND in h.tasks.kinds && h.tasks.kinds[KIND] == A2A
    && h.calls == NO_CALLS && h.flow == NO_FLOW && !h.closed
    && c.id in h.entry.submits && h.entry.submits[c.id].request == c.request && h.entry.submits[c.id].task == TaskOf(c)
  }

  lemma TaskFacts(c: Case)
    requires Named(c)
    ensures var t := TaskOf(c);
            && t.state == Submitting && t.taskId == c.id && t.source == c.request.source && t.kind == KIND && t.pool == A2A
            && t.toolName == c.request.toolName && ValidTask(t)
  {
    assert KIND[0] == 'a' && !IsSpace('a');
  }

  // ---------------------------------------------------------------- the submission

  lemma Submitted(kinds: map<string, Pool>, c: Case)
    requires Named(c) && KIND in kinds && kinds[KIND] == A2A
    ensures var h := SubmitAsync(Begin(kinds, ONE_EACH, c.agentId).hub, c.request, c.id, 0, GOOD_IO);
            AtStart(h, c) && h.entry.submits[c.id].phase.Discovering?
  {
    TaskFacts(c);
    hide Blank, ValidTask, PayloadOf;
    var s := Fresh(kinds, Memory.EMPTY, ONE_EACH);
    var r := EmptyRequest(c.request);
    assert !BlankRequest(r) && !Blank(r.source.sessionId);
    hide ValidSource, BlankRequest;
    var (q, lease) := AddSlot(s.quota, QuotaKey(r.source.sessionId, A2A));
    assert Acquire(s.quota, r.source.sessionId, A2A) == (q, Ok(Acquired(lease)));
    assert Memory.Insert(s.store, TaskOf(c), None).1 == Ok(InsertResult(Inserted, TaskOf(c)));
    assert Transfer(q, lease).1.Ok?;
    hide Transfer;
  }

  /** A written state is reported, unless a handle was lost. */
  lemma WrittenIsReported(s: Service, t: Task, u: Update, reference: Option<Reference>, now: int, io: Io)
    requires u.payload.NewPayload? && reference.Some?
    requires WriteAccepted(s, t, NextTask(t, u, u.payload.payload, now), reference, io).Ok?
    ensures var r := ReplaceAccepted(s, t, u, reference, now, io).1;
            if r.Ok? then r.value == NextTask(t, u, u.payload.payload, now) else LeakError(r.error)
  {
    hide WriteAccepted, NextTask, Release, NotifyInputRequired, NotifyTerminal, Terminal;
  }

  lemma NextIsWritten(s: Service, c: Case, u: Update, reference: Option<Reference>)
    requires s.store == Memory.Store(map[c.id := TaskOf(c)], map[c.request.source := c.id], map[], map[])
    requires Named(c) && reference.Some? && ValidReference(reference.value) && u.payload.NewPayload?
    ensures WriteAccepted(s, TaskOf(c), NextTask(TaskOf(c), u, u.payload.payload, 0), reference, GOOD_IO).Ok?
  {
    TaskFacts(c);
    var t := TaskOf(c);
    var next := NextTask(t, u, u.payload.payload, 0);
    assert ValidTask(next) && IdentityOf(next) == IdentityOf(t) && next.taskId == t.taskId;
    hide Blank, ValidTask, ValidReference, NextTask, TaskOf, IdentityOf, Named;
  }

  lemma AcceptWrites(s: Service, held: set<Lease>, c: Case, u: Update, reference: Option<Reference>)
    requires Good(s, held) && Named(c) && c.id in Effective(s) && Effective(s)[c.id] == TaskOf(c)
    requires s.store == Memory.Store(map[c.id := TaskOf(c)], map[c.request.source := c.id], map[], map[])
    requires reference.Some? && ValidReference(reference.value) && u.payload.NewPayload? && u.state != Submitting
    ensures var (s', r) := Accept(s, c.request.source.sessionId, c.id, u, reference, 0, GOOD_IO);
            r.Ok? && Effective(s') == Effective(s)[c.id := NextTask(TaskOf(c), u, u.payload.payload, 0)]
  {
    hide Good, Effective, ReplaceAccepted, RequireTask, NextTask, TaskOf, Named, WriteAccepted, ValidTask, ValidReference;
    TaskFacts(c);
    FoundTask(s, held, c.id, true);
    NextIsWritten(s, c, u, reference);
    WrittenIsReported(s, TaskOf(c), u, reference, 0, GOOD_IO);
    AcceptGood(s, held, c.request.source.sessionId, c.id, u, reference, 0, GOOD_IO);
  }

  /** The task keeps the questions of the snapshot it was accepted with. */
  ghost predicate Finished(s: Service, c: Case) {
    && c.id in Effective(s)
    && var t := Effective(s)[c.id];
    && t.state == c.done.state && t.payload == PayloadOf(c.done.artifacts, c.done.questions)
    && t.source == c.request.source && (c.done.message.Some? ==> t.statusMessage == c.done.message)
  }

  lemma NextFacts(t: Task, u: Update)
    requires u.payload.NewPayload?
    ensures var next := NextTask(t, u, u.payload.payload, 0);
            && next.state == u.state && next.payload == u.payload.payload && next.source == t.source
            && (u.statusMessage.Some? ==> next.statusMessage == u.statusMessage)
  {
  }

  lemma Accepted0(h: Hub, held: set<Lease>, c: Case)
    requires AtStart(h, c) && Good(h.tasks, held) && Named(c)
    ensures var h' := SubmitReply(h, c.agentId, c.id, Accepted(c.done), 0, GOOD_IO);
            && h'.calls == Calls(map[c.id := RecordOf(c)], map[c.done.remoteId := c.id], {c.id}, {})
            && h'.flow == StartWatcher(NO_FLOW, c.id, c.done) && !h'.closed && Finished(h'.tasks, c)
  {
    hide Good, Effective, Accept, PayloadOf, NextTask, AcceptedReference, Blank, ValidReference, TaskOf, UpdateOf, Named, Finished;
    StartFacts(h, c);
    var u := UpdateOf(RecordOf(c));
    var reference := Some(AcceptedReference(c.agentId, c.id, RecordOf(c)));
    AcceptWrites(h.tasks, held, c, u, reference);
    var calls := RecordCall(NO_CALLS, c.id, RecordOf(c));
    assert calls.records == map[c.id := RecordOf(c)] && calls.callByRemote == map[c.done.remoteId := c.id];
    FinishedAs(h.tasks, Accept(h.tasks, c.request.source.sessionId, c.id, u, reference, 0, GOOD_IO).0, c);
  }

  lemma StartFacts(h: Hub, c: Case)
    requires AtStart(h, c) && Named(c)
    ensures c.id in Effective(h.tasks) && Effective(h.tasks)[c.id] == TaskOf(c)
    ensures ValidReference(AcceptedReference(c.agentId, c.id, RecordOf(c)))
    ensures UpdateOf(RecordOf(c)) == Update(c.done.state, NewPayload(PayloadOf(c.done.artifacts, c.done.questions)), c.done.message)
    ensures RecordOf(c).source == c.request.source
  {
    assert "agent-call/a2a"[0] == 'a' && !IsSpace('a');
    hide PayloadOf, TaskOf;
  }

  lemma FinishedAs(s: Service, s': Service, c: Case)
    requires Named(c)
    requires Effective(s') == Effective(s)[c.id := NextTask(TaskOf(c), UpdateOf(RecordOf(c)), PayloadOf(c.done.artifacts, c.done.questions), 0)]
    requires UpdateOf(RecordOf(c)) == Update(c.done.state, NewPayload(PayloadOf(c.done.artifacts, c.done.questions)), c.done.message)
    ensures Finished(s', c)
  {
    TaskFacts(c);
    hide Effective, PayloadOf, TaskOf, Named, UpdateOf;
    NextFacts(TaskOf(c), UpdateOf(RecordOf(c)));
  }

  // ---------------------------------------------------------------- snapshots that are refused

  /** An update that differs from the finished task is refused after the record was written. */
  lemma Refused(s: Service, calls: Calls, held: set<Lease>, id: CallId, snapshot: Snapshot, io: Io)
    requires Good(s, held) && id in Effective(s) && id in calls.records && id in calls.taskBacked && id !in calls.handled && io.goodReads > 0
    requires var t, updated := Effective(s)[id], Updated(calls.records[id], snapshot);
             && Terminal(t.state) && t.source.sessionId == calls.records[id].source.sessionId
             && (t.state != snapshot.state || t.payload != PayloadOf(updated.artifacts, updated.questions))
    ensures ApplyOnce(s, calls, id, snapshot, 0, io)
         == (s, calls.(records := calls.records[id := Updated(calls.records[id], snapshot)]), Some(TerminalConflict))
  {
    hide Good, Effective, ApplyOnce, PayloadOf, UpdateOf, Updated, RequireTask, ReplaceAccepted;
    ApplyBacked(s, calls, id, snapshot, 0, io);
    FoundTask(s, held, id, true);
    FinalStates(snapshot.state);
  }

  /** An unreadable store changes nothing at all. */
  lemma Unread(s: Service, calls: Calls, held: set<Lease>, id: CallId, snapshot: Snapshot, io: Io)
    requires Good(s, held) && id in Effective(s) && id in calls.records && id in calls.taskBacked && id !in calls.handled && io.goodReads == 0
    requires Terminal(Effective(s)[id].state) && Effective(s)[id].source.sessionId == calls.records[id].source.sessionId
    ensures ApplyOnce(s, calls, id, snapshot, 0, io) == (s, calls, Some(Persistence(UNREADABLE)))
  {
    hide Good, Effective, ApplyOnce, PayloadOf, UpdateOf, Updated, RequireTask, ReplaceAccepted;
    ApplyBacked(s, calls, id, snapshot, 0, io);
    UnreadableTask(s, held, id, UpdateOf(Updated(calls.records[id], snapshot)), 0, io);
  }

  /** The record that the first turn leaves behind. */
  function RecordAfter(c: Case): Record {
    if c.first.goodReads == 0 then RecordOf(c) else Updated(RecordOf(c), c.done)
  }

  lemma FirstTurnFails(h: Hub, held: set<Lease>, c: Case)
    requires Good(h.tasks, held) && Finished(h.tasks, c) && Troublesome(c)
    requires h.calls == Calls(map[c.id := RecordOf(c)], map[c.done.remoteId := c.id], {c.id}, {})
    requires h.flow == StartWatcher(NO_FLOW, c.id, c.done) && !h.closed
    ensures var h' := WatchAttempt(h, 0, "", 0, c.first);
            && h'.tasks == h.tasks && h'.calls == h.calls.(records := map[c.id := RecordAfter(c)]) && !h'.closed
            && h'.flow.cancels == map[] && h'.flow.activeCancel == map[] && h'.flow.activeContinue == map[] && h'.flow.next == 1
  {
    hide Good, Effective, ApplyOnce, PayloadOf, Updated, RecordOf, Blank, Terminal, Named, Outcome, WatchAttempt, StartWatcher, WatchSnapshot,
         SetWatchPhase, EndWatcher;
    DoneFacts(c);
    if c.first.goodReads == 0 {
      Unread(h.tasks, h.calls, held, c.id, c.done, c.first);
      WatchWaits(h, 0, c.done, c.first);
      WatchOnly(h.flow, 0, WatchRecording(c.done, KindOf(h.flow.watchers[0])));
    } else {
      var updated := Updated(RecordOf(c), c.done);
      Refused(h.tasks, h.calls, held, c.id, c.done, c.first);
      assert h.calls.records[c.id := updated] == map[c.id := updated];
      WatchRefused(h, 0, c.done, updated, c.first);
      WatchOnly(h.flow, 0, Streaming);
    }
  }

  lemma WatchOnly(f: Flow, op: OpId, phase: WatchPhase)
    requires op in f.watchers
    ensures var g := SetWatchPhase(f, op, phase);
            g.cancels == f.cancels && g.activeCancel == f.activeCancel && g.activeContinue == f.activeContinue && g.next == f.next
    ensures var g := EndWatcher(f, op);
            g.cancels == f.cancels && g.activeCancel == f.activeCancel && g.activeContinue == f.activeContinue && g.next == f.next
  {
  }

  lemma DoneFacts(c: Case)
    requires Troublesome(c)
    ensures c.first.goodReads > 0 ==>
              var updated := Updated(RecordOf(c), c.done);
              && updated.artifacts == c.done.artifacts && updated.questions == None && Outcome(updated.state)
              && PayloadOf(c.done.artifacts, c.done.questions) != PayloadOf(c.done.artifacts, None)
    ensures Outcome(c.done.state)
    ensures var f := StartWatcher(NO_FLOW, c.id, c.done);
            && f.watchers == map[0 := Watcher(c.id, c.done, WatchQueued)]
            && f.cancels == map[] && f.activeCancel == map[] && f.activeContinue == map[] && f.next == 1
    ensures WatchSnapshot(Watcher(c.id, c.done, WatchQueued)) == Some(c.done)
    ensures RecordOf(c).source == c.request.source && RecordOf(c).remoteId == c.done.remoteId
    ensures RecordAfter(c).remoteId == c.done.remoteId && RecordAfter(c).source == c.request.source
  {
    QuestionsShow(c.done.artifacts, c.done.questions);
    FinalStates(c.done.state);
    hide PayloadOf, Named;
  }

  /** A first turn refused by the task service ends the watcher: the record shows an outcome already. */
  lemma WatchRefused(h: Hub, op: OpId, snapshot: Snapshot, updated: Record, io: Io)
    requires op in h.flow.watchers && h.flow.watchers[op].callId in h.calls.records && h.flow.watchers[op].phase.WatchQueued?
    requires WatchSnapshot(h.flow.watchers[op]) == Some(snapshot) && Outcome(updated.state)
    requires ApplyOnce(h.tasks, h.calls, h.flow.watchers[op].callId, snapshot, 0, io)
          == (h.tasks, h.calls.(records := h.calls.records[h.flow.watchers[op].callId := updated]), Some(TerminalConflict))
    ensures WatchAttempt(h, op, "", 0, io)
         == h.(calls := h.calls.(records := h.calls.records[h.flow.watchers[op].callId := updated]), flow := EndWatcher(h.flow, op))
  {
    hide ApplyOnce, WatchSnapshot, Outcome, EndWatcher, WatchApplied, SetWatchPhase;
  }

  /** A first turn that could not read the store waits to try again. */
  lemma WatchWaits(h: Hub, op: OpId, snapshot: Snapshot, io: Io)
    requires op in h.flow.watchers && h.flow.watchers[op].callId in h.calls.records
    requires WatchSnapshot(h.flow.watchers[op]) == Some(snapshot)
    requires ApplyOnce(h.tasks, h.calls, h.flow.watchers[op].callId, snapshot, 0, io) == (h.tasks, h.calls, Some(Persistence(UNREADABLE)))
    ensures WatchAttempt(h, op, "", 0, io)
         == h.(flow := SetWatchPhase(h.flow, op, WatchRecording(snapshot, KindOf(h.flow.watchers[op]))))
  {
    hide ApplyOnce, WatchSnapshot, Outcome, EndWatcher, WatchApplied, SetWatchPhase;
  }

  // ---------------------------------------------------------------- the cancellation

  lemma CancelRefused(h: Hub, held: set<Lease>, c: Case)
    requires Good(h.tasks, held) && Finished(h.tasks, c) && Troublesome(c) && !h.closed
    requires h.calls == Calls(map[c.id := RecordAfter(c)], map[c.done.remoteId := c.id], {c.id}, {})
    requires h.flow.cancels == map[1 := Cancel(c.id, c.done.remoteId, CancelRecording(c.other))]
    ensures var h' := CancelAttempt(h, 1, 0, GOOD_IO);
            h'.tasks == h.tasks && !h'.closed && h'.calls == h.calls.(records := map[c.id := Updated(RecordAfter(c), c.other)])
  {
    hide Good, Effective, ApplyOnce, PayloadOf, Updated, RecordOf, Blank, Terminal, Named, Outcome, EndCancel, StartWatcher, WatchSnapshot;
    DoneFacts(c);
    Refused(h.tasks, h.calls, held, c.id, c.other, GOOD_IO);
    assert h.calls.records[c.id := Updated(RecordAfter(c), c.other)] == map[c.id := Updated(RecordAfter(c), c.other)];
  }

  // ---------------------------------------------------------------- the run

  function Steps(c: Case): seq<Runs.Step> {
    [OnEntry(c.id, SubmitStep(c.request, 0, GOOD_IO)),
     OnEntry(c.id, CapabilityStep(true)),
     OnEntry(c.id, ReplyStep(Accepted(c.done), 0, GOOD_IO)),
     OnWatch(0, WatchAttemptStep("", 0, c.first)),
     CancelCallStep(c.id),
     OnCancel(1, CancelTurnStep),
     OnCancel(1, CancelReplyStep(Some(c.other))),
     OnCancel(1, CancelAttemptStep(0, GOOD_IO))]
  }

  ghost function After(kinds: map<string, Pool>, c: Case, n: nat): Runs.System
    requires n <= |Steps(c)|
  {
    Runs.Run(Begin(kinds, ONE_EACH, c.agentId), Steps(c)[..n])
  }

  lemma Next(kinds: map<string, Pool>, c: Case, n: nat)
    requires Registers(kinds) && n < |Steps(c)|
    ensures After(kinds, c, n + 1) == Runs.Apply(After(kinds, c, n), Steps(c)[n])
    ensures After(kinds, c, n + 1).agentId == c.agentId
    ensures Good(After(kinds, c, n).hub.tasks, HeldBy(After(kinds, c, n).hub.entry.invokes))
  {
    assert Steps(c)[..n + 1][..n] == Steps(c)[..n];
    AgentStays(kinds, c, n + 1);
    hide Steps, Runs.Apply;
    RunSound(kinds, ONE_EACH, c.agentId, Steps(c)[..n]);
    GoodTasks(After(kinds, c, n).hub, After(kinds, c, n).used);
  }

  lemma {:induction false} AgentStays(kinds: map<string, Pool>, c: Case, n: nat)
    requires n <= |Steps(c)|
    ensures After(kinds, c, n).agentId == c.agentId
  {
    if n > 0 {
      AgentStays(kinds, c, n - 1);
      assert Steps(c)[..n][..n - 1] == Steps(c)[..n - 1];
      hide Runs.Enabled, EntryHub, CancelHub, ContinueHub, WatchHub, CancelCall, ContinueCall, RestartHub;
    }
  }

  lemma AtTransport0(kinds: map<string, Pool>, c: Case)
    requires Registers(kinds) && Named(c)
    ensures var w := After(kinds, c, 2);
            AtStart(w.hub, c) && w.hub.entry.submits[c.id].phase.AtTransport? && w.agentId == c.agentId
  {
    hide Named, KindsOk, SubmitAsync, Good, TaskOf;
    Next(kinds, c, 0);
    Next(kinds, c, 1);
    Submitted(kinds, c);
  }

  lemma Refusals(kinds: map<string, Pool>, c: Case)
    requires Registers(kinds) && Troublesome(c)
    ensures var h := After(kinds, c, 4).hub;
            && Finished(h.tasks, c) && !h.closed
            && h.calls == Calls(map[c.id := RecordAfter(c)], map[c.done.remoteId := c.id], {c.id}, {})
            && h.flow.cancels == map[] && h.flow.activeCancel == map[] && h.flow.activeContinue == map[] && h.flow.next == 1
  {
    hide Named, KindsOk, SubmitReply, Good, TaskOf, Finished, WatchAttempt, PayloadOf, RecordOf, Terminal, Outcome, WatchSnapshot, Updated, StartWatcher, RecordAfter;
    AtTransport0(kinds, c);
    Next(kinds, c, 2);
    Next(kinds, c, 3);
    Accepted0(After(kinds, c, 2).hub, HeldBy(After(kinds, c, 2).hub.entry.invokes), c);
    FirstTurnFails(After(kinds, c, 3).hub, HeldBy(After(kinds, c, 3).hub.entry.invokes), c);
    DoneFacts(c);
  }

  lemma CancelSentAt(kinds: map<string, Pool>, c: Case)
    requires Registers(kinds) && Troublesome(c)
    ensures var h := After(kinds, c, 6).hub;
            && Finished(h.tasks, c) && !h.closed
            && h.calls == Calls(map[c.id := RecordAfter(c)], map[c.done.remoteId := c.id], {c.id}, {})
            && h.flow.cancels == map[1 := Cancel(c.id, c.done.remoteId, CancelSent)]
  {
    hide Named, KindsOk, Good, Finished, RecordOf, Terminal, Outcome, StartWatcher, RecordAfter, Begin;
    Refusals(kinds, c);
    Next(kinds, c, 4);
    Next(kinds, c, 5);
    DoneFacts(c);
  }

  lemma CancelReaches(kinds: map<string, Pool>, c: Case)
    requires Registers(kinds) && Troublesome(c)
    ensures var h := After(kinds, c, 7).hub;
            && Finished(h.tasks, c) && !h.closed
            && h.calls == Calls(map[c.id := RecordAfter(c)], map[c.done.remoteId := c.id], {c.id}, {})
            && h.flow.cancels == map[1 := Cancel(c.id, c.done.remoteId, CancelRecording(c.other))]
  {
    hide Named, KindsOk, Good, Finished, RecordOf, Terminal, Outcome, StartWatcher, RecordAfter, Begin;
    CancelSentAt(kinds, c);
    Next(kinds, c, 6);
    DoneFacts(c);
  }

  /** The record ends in the cancellation's state and the task in the accepted one. */
  lemma OvertakenRun(kinds: map<string, Pool>, c: Case)
    requires Registers(kinds) && Troublesome(c)
    ensures var h := Runs.Run(Begin(kinds, ONE_EACH, c.agentId), Steps(c)).hub;
            && !h.closed && c.id in h.calls.taskBacked && c.id in h.calls.records && c.id in Effective(h.tasks)
            && h.calls.records[c.id].state == c.other.state && Effective(h.tasks)[c.id].state == c.done.state != c.other.state
  {
    hide Named, KindsOk, Good, TaskOf, PayloadOf, RecordOf, Terminal, Outcome, Effective, CancelAttempt, StartWatcher, EndCancel, RecordAfter;
    CancelReaches(kinds, c);
    Next(kinds, c, 7);
    CancelRefused(After(kinds, c, 7).hub, HeldBy(After(kinds, c, 7).hub.entry.invokes), c);
    assert Steps(c)[..8] == Steps(c);
  }

  /** With good store calls only: a snapshot that is finished and carries questions is enough. */
  lemma QuestionsBreakAgreement(kinds: map<string, Pool>, c: Case)
    requires Registers(kinds) && Troublesome(c) && c.done.questions.Some? && c.first == GOOD_IO
    ensures var h := Runs.Run(Begin(kinds, ONE_EACH, c.agentId), Steps(c)).hub;
            && !h.closed && c.id in h.calls.taskBacked && c.id in h.calls.records && c.id in Effective(h.tasks)
            && h.calls.records[c.id].state == c.other.state && Effective(h.tasks)[c.id].state == c.done.state != c.other.state
            && !AgreesIn(h, c.id)
  {
    hide Named, Registers, Runs.Run, Steps, Effective;
    OvertakenRun(kinds, c);
    FinalStates(c.done.state);
  }

  /** Without questions: one read of the store that fails at the first turn is enough. */
  lemma UnreadableTurnBreaksAgreement(kinds: map<string, Pool>, c: Case)
    requires Registers(kinds) && Troublesome(c) && c.done.questions.None?
    ensures var h := Runs.Run(Begin(kinds, ONE_EACH, c.agentId), Steps(c)).hub;
            && !h.closed && c.id in h.calls.taskBacked && c.id in h.calls.records && c.id in Effective(h.tasks)
            && h.calls.records[c.id].state == c.other.state && Effective(h.tasks)[c.id].state == c.done.state != c.other.state
            && c.first.goodReads == 0 && !AgreesIn(h, c.id)
  {
    hide Named, Registers, Runs.Run, Steps, Effective;
    OvertakenRun(kinds, c);
    FinalStates(c.done.state);
  }
}
