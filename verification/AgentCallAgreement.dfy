/**
 Agreement of the two copies of a call's state: the record of the AgentCall service and the task
 of the task service, while the service is open.
 */
module AgentCallAgreement {
  import opened Common
  import opened SessionTaskQuota
  import opened AsyncTaskFacts
  import opened AsyncTaskService
  import opened AsyncTaskInvariant
  import opened AgentCallService
  import opened AgentCallFlow
  import opened AgentCallTasks
  import opened AgentCallInvariant

  /** A task-backed call has a record and an accepted task, and both are in one final state once it is handled. */
  ghost predicate Backed(s: Service, c: Calls, id: CallId) {
    && id in c.records && id in Effective(s)
    && var t, r := Effective(s)[id], c.records[id];
    && t.source.sessionId == r.source.sessionId && t.state != Submitting
    && (id in c.handled ==> Terminal(t.state) && t.state == r.state)
  }

  /** Record and task are in the same state, or the task is still unknown. */
  ghost predicate SameState(s: Service, c: Calls, id: CallId) {
    && id in c.records && id in Effective(s)
    && (Effective(s)[id].state == Unknown || Effective(s)[id].state == c.records[id].state)
  }

  /**
   A snapshot overtakes a call: the task is final, nobody has handled that yet, and the store can be
   read, so the task service refuses the snapshot after the record has followed it.
   */
  ghost predicate Overtaken(s: Service, c: Calls, id: CallId, snapshot: Snapshot, io: Io) {
    && id in c.taskBacked && id !in c.handled && id in Effective(s) && Terminal(Effective(s)[id].state)
    && snapshot.state != Effective(s)[id].state && io.goodReads > 0
  }

  // ---------------------------------------------------------------- blocks that leave a call alone

  /** Neither copy of a call's state changes. */
  ghost predicate LeftAlone(s: Service, s': Service, c: Calls, c': Calls, id: CallId) {
    && (id in c.records ==> id in c'.records && c'.records[id] == c.records[id])
    && (id in c'.handled <==> id in c.handled)
    && (id in Effective(s) ==> id in Effective(s') && Effective(s')[id] == Effective(s)[id])
  }

  lemma LeftAloneKeeps(s: Service, s': Service, c: Calls, c': Calls, id: CallId)
    requires LeftAlone(s, s', c, c', id) && Backed(s, c, id)
    ensures Backed(s', c', id) && (SameState(s', c', id) <==> SameState(s, c, id))
  {
    hide Effective, Terminal;
  }

  /** A block that changes only the task of one call leaves the others alone. */
  lemma OthersLeftAlone(s: Service, s': Service, c: Calls, c': Calls, id: CallId, other: CallId)
    requires OnlyTask(s, s', other) && id != other
    requires id in c.records ==> id in c'.records && c'.records[id] == c.records[id]
    requires id in c'.handled <==> id in c.handled
    ensures LeftAlone(s, s', c, c', id)
  {
    hide Effective;
  }

  // ---------------------------------------------------------------- acceptance

  /** An accepted submission, durable or retained, begins in agreement. */
  lemma AcceptanceAgrees(h: Hub, used: set<CallId>, agentId: string, id: CallId, reply: Reply, now: int, io: Io)
    requires Core(h, used) && id in h.entry.submits && h.entry.submits[id].phase.AtTransport?
    requires h.calls.handled <= h.calls.records.Keys
    requires reply.Accepted? && !h.closed && reply.snapshot.remoteId !in h.calls.callByRemote
    ensures var h' := SubmitReply(h, agentId, id, reply, now, io);
            Backed(h'.tasks, h'.calls, id) && SameState(h'.tasks, h'.calls, id)
  {
    hide LeasesOk, EntryOk, DispatchOk, FlowOk, Effective, AcceptOrRetain, AcceptedAs, OnlyTask, SubmitOk, IdsUsed, Backed, SameState;
    SubmitReplyCore(h, used, agentId, id, reply, now, io);
    SubmitIsReady(h, id, used);
    AcceptedParts(h, agentId, id, reply, now, io, used);
    var h' := SubmitReply(h, agentId, id, reply, now, io);
    AcceptedAgrees(h'.tasks, h'.calls, id, NewRecord(h.entry.submits[id].request, reply.snapshot, false));
  }

  lemma AcceptedParts(h: Hub, agentId: string, id: CallId, reply: Reply, now: int, io: Io, used: set<CallId>)
    requires Core(h, used) && id in h.entry.submits && reply.Accepted? && !h.closed && reply.snapshot.remoteId !in h.calls.callByRemote
    ensures var h' := SubmitReply(h, agentId, id, reply, now, io);
            && h'.calls == RecordCall(h.calls, id, NewRecord(h.entry.submits[id].request, reply.snapshot, false)).(taskBacked := h.calls.taskBacked + {id})
            && h'.flow == StartWatcher(h.flow, id, reply.snapshot)
  {
    hide LeasesOk, EntryOk, DispatchOk, FlowOk, Effective, AcceptOrRetain, AcceptedAs, OnlyTask, SubmitOk, StartWatcher;
    SubmitIsReady(h, id, used);
    AcceptLeases(h, agentId, id, h.entry.submits[id], NewRecord(h.entry.submits[id].request, reply.snapshot, false), now, io);
  }

  lemma AcceptedAgrees(s: Service, c: Calls, id: CallId, record: Record)
    requires id in Effective(s) && AcceptedAs(Effective(s)[id], record) && id in c.records && c.records[id] == record && id !in c.handled
    ensures Backed(s, c, id) && SameState(s, c, id)
  {
    hide PayloadOf, Effective;
  }

  // ---------------------------------------------------------------- snapshots

  /** An update of a live accepted task takes the new state, or the store failed and nothing changed. */
  lemma UpdateOutcome(s: Service, held: set<Lease>, id: CallId, u: Update, now: int, io: Io)
    requires Good(s, held) && id in Effective(s) && u.payload.NewPayload? && u.state != Submitting
    requires Effective(s)[id].state != Submitting && !Terminal(Effective(s)[id].state)
    ensures var (s', r) := UpdateAccepted(s, Effective(s)[id].source.sessionId, id, u, None, now, io);
            if r.Ok? then Effective(s') == Effective(s)[id := r.value] && r.value.state == u.state && r.value.source == Effective(s)[id].source
            else r.error.Persistence? && s' == s
  {
    hide Good, Effective, RequireTask, ReplaceAccepted, Terminal, Moves, NextTask, ValidTask;
    var t := Effective(s)[id];
    UpdateAcceptedGood(s, held, t.source.sessionId, id, u, None, now, io);
    if RequireTask(s, t.source.sessionId, id, io.goodReads > 0).Ok? {
      TaskKnown(s, held, t.source.sessionId, id, io.goodReads > 0);
      ReplaceResult(s, t, u, None, now, io);
      NextTaskSource(t, u, now);
    }
  }

  lemma NextTaskSource(t: Task, u: Update, now: int)
    requires u.payload.NewPayload?
    ensures NextTask(t, u, u.payload.payload, now).source == t.source
  {
  }

  /** A final task never changes; what it is told in another state, and can read, it refuses for good. */
  lemma FinalUpdate(s: Service, held: set<Lease>, id: CallId, u: Update, now: int, io: Io)
    requires Good(s, held) && id in Effective(s) && Terminal(Effective(s)[id].state) && u.payload.NewPayload?
    ensures var (s', r) := UpdateAccepted(s, Effective(s)[id].source.sessionId, id, u, None, now, io);
            && s' == s && (r.Ok? ==> u.state == Effective(s)[id].state)
            && (r.Err? && r.error.Persistence? <==> io.goodReads == 0)
            && (u.state != Effective(s)[id].state ==> r.Err?)
  {
    hide Good, Effective, RequireTask, ReplaceAccepted;
    if io.goodReads > 0 { FoundTask(s, held, id, true); } else { UnreadableTask(s, held, id, u, now, io); }
  }

  lemma FoundTask(s: Service, held: set<Lease>, id: CallId, readable: bool)
    requires Good(s, held) && id in Effective(s) && readable
    ensures RequireTask(s, Effective(s)[id].source.sessionId, id, readable) == Ok(Effective(s)[id])
  {
    hide LeaseOk, NotifyOk, Consistent, ValidTask;
  }

  /** What one attempt does to the call it is for: it keeps the copies in agreement exactly unless it overtakes the call. */
  lemma AttemptAgrees(s: Service, held: set<Lease>, c: Calls, id: CallId, snapshot: Snapshot, now: int, io: Io)
    requires Good(s, held) && id in c.taskBacked && Backed(s, c, id)
    ensures var (s', c', _) := ApplyOnce(s, c, id, snapshot, now, io);
            && Backed(s', c', id)
            && (SameState(s, c, id) ==> (SameState(s', c', id) <==> !Overtaken(s, c, id, snapshot, io)))
  {
    hide Good, Effective, UpdateAccepted, Terminal, PayloadOf, ApplyOnce, Updated, UpdateOf;
    ApplyBacked(s, c, id, snapshot, now, io);
    var t, u := Effective(s)[id], UpdateOf(Updated(c.records[id], snapshot));
    FinalStates(t.state);
    if id in c.handled {
    } else if Terminal(t.state) {
      FinalUpdate(s, held, id, u, now, io);
    } else {
      UpdateOutcome(s, held, id, u, now, io);
    }
  }

  /** A task that an attempt makes final is handled with it. */
  lemma AttemptSettles(s: Service, held: set<Lease>, c: Calls, id: CallId, snapshot: Snapshot, now: int, io: Io)
    requires Good(s, held) && id in c.taskBacked && Backed(s, c, id)
    ensures var (s', c', _) := ApplyOnce(s, c, id, snapshot, now, io);
            id in Effective(s') && Terminal(Effective(s')[id].state) && id !in c'.handled ==>
              Terminal(Effective(s)[id].state) && id !in c.handled
  {
    hide Good, Effective, UpdateAccepted, Terminal, PayloadOf, ApplyOnce, Updated, UpdateOf;
    ApplyBacked(s, c, id, snapshot, now, io);
    var t, u := Effective(s)[id], UpdateOf(Updated(c.records[id], snapshot));
    if id !in c.handled && !Terminal(t.state) { UpdateOutcome(s, held, id, u, now, io); }
  }

  lemma ApplyOthers(s: Service, c: Calls, id: CallId, snapshot: Snapshot, now: int, io: Io)
    requires id in c.records
    ensures var c' := ApplyOnce(s, c, id, snapshot, now, io).1;
            forall x | x != id :: (x in c'.handled <==> x in c.handled) && (x in c.records ==> x in c'.records && c'.records[x] == c.records[x])
  {
    hide UpdateAccepted, Updated, UpdateOf;
  }

  /** One attempt on a task-backed call, told by what the task service answers. */
  lemma ApplyBacked(s: Service, c: Calls, id: CallId, snapshot: Snapshot, now: int, io: Io)
    requires id in c.records
    ensures Updated(c.records[id], snapshot).state == snapshot.state && Updated(c.records[id], snapshot).source == c.records[id].source
    ensures var updated := Updated(c.records[id], snapshot);
            && UpdateOf(updated).state == snapshot.state && UpdateOf(updated).statusMessage == updated.message
            && UpdateOf(updated).payload == NewPayload(PayloadOf(updated.artifacts, updated.questions))
    ensures id in c.handled ==> ApplyOnce(s, c, id, snapshot, now, io) == (s, c, None)
    ensures id !in c.handled && id in c.taskBacked ==>
              var updated := Updated(c.records[id], snapshot);
              var written := c.(records := c.records[id := updated]);
              var (s', r) := UpdateAccepted(s, c.records[id].source.sessionId, id, UpdateOf(updated), None, now, io);
              ApplyOnce(s, c, id, snapshot, now, io)
              == if r.Ok? then (s', if Terminal(snapshot.state) then written.(handled := c.handled + {id}) else written, None)
                 else (s', if r.error.Persistence? then c else written, Some(r.error))
  {
    hide UpdateAccepted, PayloadOf, Terminal;
  }

  lemma FinalStates(state: TaskState)
    ensures Terminal(state) ==> state != InputRequired && state != Unknown && state != Submitting
  {
  }

  // ---------------------------------------------------------------- the first turn

  lemma QuestionsShow(artifacts: string, questions: Option<string>)
    ensures PayloadOf(artifacts, questions) == PayloadOf(artifacts, None) <==> questions.None?
  {
    if questions.Some? {
      assert |PayloadOf(artifacts, questions)| > |PayloadOf(artifacts, None)|;
    }
  }

  /** A watcher whose first turn, the one that applies the outcome the call was accepted with, is still queued. */
  predicate QueuedInitial(f: Flow, id: CallId, op: OpId) {
    op in f.watchers && f.watchers[op].callId == id && f.watchers[op].phase.WatchQueued? && Outcome(f.watchers[op].initial.state)
  }

  /**
   The exact condition for the first turn to settle a call that was accepted in a final state:
   its lookup of the task succeeds and the accepted snapshot carried no questions. Otherwise the
   call stays unhandled although its task is final, and a later snapshot can move the record away.
   */
  lemma FirstTurnSettles(h: Hub, held: set<Lease>, id: CallId, op: OpId, text: string, now: int, io: Io)
    requires Good(h.tasks, held) && QueuedInitial(h.flow, id, op) && Terminal(h.flow.watchers[op].initial.state)
    requires id in h.calls.taskBacked && id in h.calls.records && id !in h.calls.handled && id in Effective(h.tasks)
    requires var w, r, t := h.flow.watchers[op].initial, h.calls.records[id], Effective(h.tasks)[id];
             && r.state == w.state && r.artifacts == w.artifacts && r.questions == w.questions && r.message == w.message
             && t.state == r.state && t.payload == PayloadOf(r.artifacts, r.questions) && t.source.sessionId == r.source.sessionId
             && (r.message.Some? ==> t.statusMessage == r.message)
    ensures id in WatchAttempt(h, op, text, now, io).calls.handled
            <==> io.goodReads > 0 && h.flow.watchers[op].initial.questions.None?
  {
    hide Good, Effective, UpdateAccepted, PayloadOf, ApplyOnce, Updated, UpdateOf, WatchApplied, WatchError, SetWatchPhase, Terminal;
    var w, r := h.flow.watchers[op].initial, h.calls.records[id];
    ApplyBacked(h.tasks, h.calls, id, w, now, io);
    AnswerToRepeat(h.tasks, held, id, r, w, now, io);
    WatchHandled(h, op, text, now, io);
  }

  /** What one snapshot in another state does to a call whose task is final and whose record agrees with it. */
  lemma OvertakenDisagrees(s: Service, held: set<Lease>, c: Calls, id: CallId, snapshot: Snapshot, now: int, io: Io)
    requires Good(s, held) && id in c.records && id in c.taskBacked && id in Effective(s)
    requires var t, r := Effective(s)[id], c.records[id];
             Terminal(t.state) && t.state == r.state && t.source.sessionId == r.source.sessionId && snapshot.state != t.state
    ensures var (s', c', _) := ApplyOnce(s, c, id, snapshot, now, io);
            && id in c'.records && id in Effective(s') && Effective(s')[id] == Effective(s)[id]
            && (c'.records[id].state == Effective(s')[id].state <==> id in c.handled || io.goodReads == 0)
  {
    hide Good, Effective, UpdateAccepted, ApplyOnce, Updated, UpdateOf, PayloadOf;
    ApplyBacked(s, c, id, snapshot, now, io);
    FinalUpdate(s, held, id, UpdateOf(Updated(c.records[id], snapshot)), now, io);
  }

  lemma WatchHandled(h: Hub, op: OpId, text: string, now: int, io: Io)
    requires op in h.flow.watchers && h.flow.watchers[op].callId in h.calls.records && WatchSnapshot(h.flow.watchers[op]).Some?
    ensures WatchAttempt(h, op, text, now, io).calls
         == ApplyOnce(h.tasks, h.calls, h.flow.watchers[op].callId, WatchSnapshot(h.flow.watchers[op]).value, now, io).1
  {
    ApplyKeepsRecords(h, h.flow.watchers[op].callId, WatchSnapshot(h.flow.watchers[op]).value, now, io);
    hide ApplyOnce, WatchApplied, SetWatchPhase, KindOf, WatchSnapshot;
  }

  lemma AnswerToRepeat(s: Service, held: set<Lease>, id: CallId, r: Record, w: Snapshot, now: int, io: Io)
    requires Good(s, held) && id in Effective(s) && Terminal(w.state)
    requires var t := Effective(s)[id];
             && r.state == w.state && r.message == w.message && t.state == w.state && t.source.sessionId == r.source.sessionId
             && t.payload == PayloadOf(w.artifacts, w.questions) && (w.message.Some? ==> t.statusMessage == w.message)
    ensures var answer := UpdateAccepted(s, r.source.sessionId, id, UpdateOf(Updated(r, w)), None, now, io).1;
            answer.Ok? <==> io.goodReads > 0 && w.questions.None?
  {
    hide Good, Effective, ReplaceAccepted, RequireTask;
    FinalStates(w.state);
    QuestionsShow(w.artifacts, w.questions);
    var u := UpdateOf(Updated(r, w));
    assert u.state == w.state && u.statusMessage == w.message && u.payload == NewPayload(PayloadOf(w.artifacts, None));
    hide PayloadOf, Updated, UpdateOf;
    if io.goodReads > 0 { FoundTask(s, held, id, true); } else { UnreadableTask(s, held, id, u, now, io); }
  }

  lemma UnreadableTask(s: Service, held: set<Lease>, id: CallId, u: Update, now: int, io: Io)
    requires Good(s, held) && id in Effective(s) && Terminal(Effective(s)[id].state) && io.goodReads == 0
    ensures UpdateAccepted(s, Effective(s)[id].source.sessionId, id, u, None, now, io) == (s, Err(Persistence(UNREADABLE)))
  {
    hide LeaseOk, NotifyOk, Consistent, ValidTask;
    assert id !in s.overlay;
  }
}
