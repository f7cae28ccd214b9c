/** The invariant of the AgentCall service and the proof that every block of it keeps it. */
module AgentCallInvariant {
  import opened Common
  import opened SessionTaskQuota
  import opened AsyncTaskFacts
  import opened AsyncTaskService
  import opened AsyncTaskInvariant
  import opened AgentCallService
  import opened AgentCallFlow
  import opened AgentCallTasks

  // ---------------------------------------------------------------- the invariant

  ghost function HeldBy(invokes: map<CallId, Invoke>): set<Lease> {
    set id | id in invokes :: invokes[id].lease
  }

  /** The handles of blocking invocations are live, distinct, and charged to the caller's Session. */
  ghost predicate InvokesOk(invokes: map<CallId, Invoke>) {
    && (forall id, id' | id in invokes && id' in invokes && invokes[id].lease == invokes[id'].lease :: id == id')
    && (forall id | id in invokes :: invokes[id].lease.key == QuotaKey(invokes[id].request.source.sessionId, A2A))
  }

  ghost predicate LeasesOk(s: Service, invokes: map<CallId, Invoke>) {
    Good(s, HeldBy(invokes)) && InvokesOk(invokes) && KIND in s.kinds && s.kinds[KIND] == A2A
  }

  /** Operations before acceptance have no record yet, and a blocking call has no task. */
  ghost predicate EntryOk(s: Service, e: Entry, c: Calls) {
    && (forall id | id in e.submits :: SubmitOk(s, id, e.submits[id]) && id !in c.records && id !in e.invokes)
    && (forall id | id in e.invokes :: id !in Effective(s) && (e.invokes[id].phase.Waiting? || id !in c.records))
    && (forall id | id in c.taskBacked :: id in c.records && id in Effective(s))
  }

  ghost function AsyncDispatches(e: Entry, src: Source): nat {
    Count(e.dispatches, Dispatch(src, Async))
  }

  predicate IsDiscovering(e: Entry, id: CallId) {
    id in e.submits && e.submits[id].phase.Discovering?
  }

  /**
   A source is dispatched at most once; while its submission still looks for the capability it
   has not been dispatched; in both cases the reservation is durable already.
   */
  ghost predicate DispatchOk(s: Service, e: Entry) {
    && (forall src :: AsyncDispatches(e, src) <= 1 && (AsyncDispatches(e, src) == 1 ==> src in s.store.bySource))
    && (forall id | IsDiscovering(e, id) ::
          AsyncDispatches(e, e.submits[id].request.source) == 0 && e.submits[id].request.source in s.store.bySource)
    && (forall id, id' | IsDiscovering(e, id) && IsDiscovering(e, id') && e.submits[id].request.source == e.submits[id'].request.source ::
          id == id')
  }

  ghost predicate IdsUsed(s: Service, e: Entry, c: Calls, used: set<CallId>) {
    && Effective(s).Keys <= used && c.records.Keys <= used
    && e.submits.Keys <= used && e.invokes.Keys <= used
  }

  ghost predicate Core(h: Hub, used: set<CallId>) {
    && LeasesOk(h.tasks, h.entry.invokes)
    && EntryOk(h.tasks, h.entry, h.calls)
    && DispatchOk(h.tasks, h.entry)
    && FlowOk(h.flow, h.calls.records.Keys)
    && IdsUsed(h.tasks, h.entry, h.calls, used)
  }

  // ---------------------------------------------------------------- blocks that only move an operation on

  lemma FlowMoves(h: Hub, f: Flow, used: set<CallId>)
    requires Core(h, used) && FlowOk(f, h.calls.records.Keys)
    ensures Core(h.(flow := f), used)
  {
    hide LeasesOk, EntryOk, DispatchOk, FlowOk, IdsUsed;
  }

  lemma SubmitPhaseMoves(h: Hub, id: CallId, phase: Phase, used: set<CallId>)
    requires Core(h, used) && id in h.entry.submits && !phase.Discovering?
    ensures Core(SetSubmitPhase(h, id, phase), used)
  {
    hide LeasesOk, EntryOk, DispatchOk, FlowOk, Effective;
    var e' := SetSubmitPhase(h, id, phase).entry;
    PhaseEntry(h.tasks, h.entry, e', h.calls);
    assert forall x | IsDiscovering(e', x) :: IsDiscovering(h.entry, x) && e'.submits[x].request == h.entry.submits[x].request;
    DispatchKept(h.tasks, h.tasks, h.entry, e');
    assert e'.submits.Keys == h.entry.submits.Keys;
  }

  /** Phases of submissions, and phases of invocations that keep their promise, are not part of the entry facts. */
  lemma PhaseEntry(s: Service, e: Entry, e': Entry, c: Calls)
    requires EntryOk(s, e, c) && e'.submits.Keys == e.submits.Keys && e'.invokes.Keys == e.invokes.Keys
    requires forall x | x in e.submits :: e'.submits[x].request == e.submits[x].request && e'.submits[x].task == e.submits[x].task
    requires forall x | x in e.invokes :: e'.invokes[x].phase == e.invokes[x].phase || e'.invokes[x].phase.Waiting? || x !in c.records
    ensures EntryOk(s, e', c)
  {
    hide Effective;
  }

  lemma InvokePhaseMoves(h: Hub, id: CallId, phase: Phase, used: set<CallId>)
    requires Core(h, used) && id in h.entry.invokes && (!phase.Waiting? ==> id !in h.calls.records)
    ensures Core(SetInvokePhase(h, id, phase), used)
  {
    hide LeasesOk, EntryOk, DispatchOk, FlowOk, Effective;
    var e' := SetInvokePhase(h, id, phase).entry;
    assert e'.invokes.Keys == h.entry.invokes.Keys;
    PhaseEntry(h.tasks, h.entry, e', h.calls);
    assert forall x :: IsDiscovering(e', x) == IsDiscovering(h.entry, x);
    DispatchKept(h.tasks, h.tasks, h.entry, e');
    PhaseLeases(h.tasks, h.entry.invokes, e'.invokes);
  }

  lemma PhaseLeases(s: Service, invokes: map<CallId, Invoke>, invokes': map<CallId, Invoke>)
    requires LeasesOk(s, invokes) && invokes'.Keys == invokes.Keys
    requires forall x | x in invokes :: invokes'[x].lease == invokes[x].lease && invokes'[x].request == invokes[x].request
    ensures LeasesOk(s, invokes')
  {
    hide Good;
    SameHandles(invokes, invokes');
    hide HeldBy;
  }

  lemma SameHandles(invokes: map<CallId, Invoke>, invokes': map<CallId, Invoke>)
    requires invokes'.Keys == invokes.Keys && forall id | id in invokes :: invokes'[id].lease == invokes[id].lease
    ensures HeldBy(invokes') == HeldBy(invokes)
  {
    forall l | l in HeldBy(invokes) ensures l in HeldBy(invokes') {
      var id :| id in invokes && invokes[id].lease == l;
      assert id in invokes' && invokes'[id].lease == l;
    }
  }

  lemma HandlesWithout(invokes: map<CallId, Invoke>, id: CallId)
    requires InvokesOk(invokes) && id in invokes
    ensures InvokesOk(invokes - {id}) && HeldBy(invokes - {id}) == HeldBy(invokes) - {invokes[id].lease}
    ensures invokes[id].lease in HeldBy(invokes)
  {
    var fewer := invokes - {id};
    forall l | l in HeldBy(invokes) && l != invokes[id].lease ensures l in HeldBy(fewer) {
      var x :| x in invokes && invokes[x].lease == l;
      assert x in fewer && fewer[x].lease == l;
    }
  }

  lemma HandlesWith(invokes: map<CallId, Invoke>, id: CallId, inv: Invoke)
    requires InvokesOk(invokes) && id !in invokes && inv.lease !in HeldBy(invokes)
    requires inv.lease.key == QuotaKey(inv.request.source.sessionId, A2A)
    ensures InvokesOk(invokes[id := inv]) && HeldBy(invokes[id := inv]) == HeldBy(invokes) + {inv.lease}
  {
    var more := invokes[id := inv];
    forall l | l in HeldBy(invokes) ensures l in HeldBy(more) {
      var x :| x in invokes && invokes[x].lease == l;
      assert x in more && more[x].lease == l;
    }
    assert more[id].lease == inv.lease;
    assert forall x | x in invokes :: invokes[x].lease in HeldBy(invokes);
  }

  // ---------------------------------------------------------------- blocks that change one task

  /** The other submissions and invocations do not notice a change of one task. */
  lemma EntryKept(s: Service, s': Service, e: Entry, e': Entry, c: Calls, c': Calls, id: CallId)
    requires EntryOk(s, e, c) && OnlyTask(s, s', id)
    requires e'.submits == e.submits - {id} && e'.invokes == e.invokes - {id}
    requires c'.records.Keys <= c.records.Keys + {id} && c.records.Keys <= c'.records.Keys
    requires c'.taskBacked <= c.taskBacked + {id} && (id in c'.taskBacked ==> id in c'.records && id in Effective(s'))
    ensures EntryOk(s', e', c')
  {
    hide Effective, SubmitOk;
    OthersStay(s, s', id);
    forall x | x in e'.submits ensures SubmitOk(s', x, e'.submits[x]) {
      SubmitStays(s, s', id, x, e.submits[x]);
    }
  }

  lemma SubmitStays(s: Service, s': Service, id: CallId, x: CallId, sub: Submit)
    requires SubmitOk(s, x, sub) && OnlyTask(s, s', id) && x != id
    ensures SubmitOk(s', x, sub)
  {
    hide Effective;
  }

  lemma OthersStay(s: Service, s': Service, id: CallId)
    requires OnlyTask(s, s', id)
    ensures forall x | x != id :: x in Effective(s') <==> x in Effective(s)
    ensures forall x | x in Effective(s) && x != id :: x in Effective(s') && Effective(s')[x] == Effective(s)[x]
  {
    hide Effective;
  }

  lemma DispatchKept(s: Service, s': Service, e: Entry, e': Entry)
    requires DispatchOk(s, e) && s.store.bySource.Keys <= s'.store.bySource.Keys
    requires e'.dispatches == e.dispatches
    requires forall x | IsDiscovering(e', x) :: IsDiscovering(e, x) && e'.submits[x].request == e.submits[x].request
    ensures DispatchOk(s', e')
  {
    hide Count;
    assert forall src :: AsyncDispatches(e', src) == AsyncDispatches(e, src);
    assert forall src | src in s.store.bySource :: src in s'.store.bySource;
  }

  lemma IdsKept(s: Service, s': Service, e: Entry, e': Entry, c: Calls, c': Calls, id: CallId, used: set<CallId>)
    requires IdsUsed(s, e, c, used) && OnlyTask(s, s', id)
    requires e'.submits.Keys <= e.submits.Keys + {id} && e'.invokes.Keys <= e.invokes.Keys + {id}
    requires c'.records.Keys <= c.records.Keys + {id}
    ensures IdsUsed(s', e', c', used + {id})
  {
    hide Effective;
  }

  /** The common case: one task changes, and its own operation, if any, is over. */
  lemma TaskMoves(h: Hub, h': Hub, id: CallId, used: set<CallId>)
    requires Core(h, used) && OnlyTask(h.tasks, h'.tasks, id) && id in used
    requires h'.entry.submits == h.entry.submits - {id} && h'.entry.invokes == h.entry.invokes - {id}
    requires h'.entry.dispatches == h.entry.dispatches
    requires LeasesOk(h'.tasks, h'.entry.invokes) && FlowOk(h'.flow, h'.calls.records.Keys)
    requires h'.calls.records.Keys <= h.calls.records.Keys + {id} && h.calls.records.Keys <= h'.calls.records.Keys
    requires h'.calls.taskBacked <= h.calls.taskBacked + {id}
    requires id in h'.calls.taskBacked ==> id in h'.calls.records && id in Effective(h'.tasks)
    ensures Core(h', used)
  {
    hide LeasesOk, FlowOk, EntryOk, DispatchOk, Effective;
    EntryKept(h.tasks, h'.tasks, h.entry, h'.entry, h.calls, h'.calls, id);
    DispatchKept(h.tasks, h'.tasks, h.entry, h'.entry);
    hide OnlyTask;
    IdsKept(h.tasks, h'.tasks, h.entry, h'.entry, h.calls, h'.calls, id, used);
    assert used + {id} == used;
  }

  lemma CoreGrows(h: Hub, used: set<CallId>, used': set<CallId>)
    requires Core(h, used) && used <= used'
    ensures Core(h, used')
  {
    hide LeasesOk, EntryOk, DispatchOk, FlowOk, Effective;
  }

  /** An id no operation uses is not in the way of any. */
  lemma Unused(h: Hub, used: set<CallId>, id: CallId)
    requires Core(h, used) && id !in used
    ensures id !in Effective(h.tasks) && id !in h.calls.records && id !in h.calls.taskBacked
    ensures h.entry.submits - {id} == h.entry.submits && h.entry.invokes - {id} == h.entry.invokes
    ensures id !in h.entry.submits && id !in h.entry.invokes
  {
    hide LeasesOk, DispatchOk, FlowOk, Effective;
  }

  // ---------------------------------------------------------------- asynchronous submission

  lemma SubmitAsyncCore(h: Hub, used: set<CallId>, r: CallRequest, id: CallId, now: int, io: Io)
    requires Core(h, used) && id !in used
    ensures Core(SubmitAsync(h, r, id, now, io), used + {id})
  {
    hide LeasesOk, EntryOk, DispatchOk, FlowOk, IdsUsed, Effective, Reserve, EmptyRequest, OnlyTask, SubmitOk;
    CoreGrows(h, used, used + {id});
    if !h.closed {
      Unused(h, used, id);
      var (s, result) := Reserve(h.tasks, EmptyRequest(r), id, now, io);
      ReserveLeases(h, r, id, now, io);
      var h1 := h.(tasks := s);
      TaskMoves(h, h1, id, used + {id});
      if result.Ok? && result.value.Reserved? {
        ReservedSubmit(h, r, id, now, io);
        SubmitEnters(h1, id, Submit(r, result.value.task, Discovering), used + {id});
      }
    }
  }

  lemma ReserveLeases(h: Hub, r: CallRequest, id: CallId, now: int, io: Io)
    requires LeasesOk(h.tasks, h.entry.invokes) && id !in Effective(h.tasks)
    ensures var s := Reserve(h.tasks, EmptyRequest(r), id, now, io).0;
            LeasesOk(s, h.entry.invokes) && OnlyTask(h.tasks, s, id)
  {
    hide Good, Reserve, EmptyRequest, InvokesOk, HeldBy, Moves, OnlyTask, Effective;
    ReserveGood(h.tasks, HeldBy(h.entry.invokes), EmptyRequest(r), id, now, io);
    var s := Reserve(h.tasks, EmptyRequest(r), id, now, io).0;
    MovesOnly(h.tasks, s, id, Quiet);
    assert s.kinds == h.tasks.kinds by { OnlyKinds(h.tasks, s, id); }
  }

  lemma OnlyKinds(s: Service, s': Service, id: CallId)
    requires OnlyTask(s, s', id)
    ensures s'.kinds == s.kinds && s.store.bySource.Keys <= s'.store.bySource.Keys
  {
  }

  lemma ReservedSubmit(h: Hub, r: CallRequest, id: CallId, now: int, io: Io)
    requires LeasesOk(h.tasks, h.entry.invokes) && DispatchOk(h.tasks, h.entry) && id !in Effective(h.tasks)
    requires Reserve(h.tasks, EmptyRequest(r), id, now, io).1.Ok? && Reserve(h.tasks, EmptyRequest(r), id, now, io).1.value.Reserved?
    ensures var (s, result) := Reserve(h.tasks, EmptyRequest(r), id, now, io);
            && SubmitOk(s, id, Submit(r, result.value.task, Discovering)) && r.source in s.store.bySource
    ensures AsyncDispatches(h.entry, r.source) == 0
    ensures forall x | IsDiscovering(h.entry, x) :: h.entry.submits[x].request.source != r.source
  {
    hide Good, Reserve, InvokesOk, HeldBy, Effective, AsyncDispatches, PayloadOf, OnlyTask;
    ReservedFacts(h.tasks, HeldBy(h.entry.invokes), EmptyRequest(r), id, now, io);
    ReserveLeases(h, r, id, now, io);
    OnlyKinds(h.tasks, Reserve(h.tasks, EmptyRequest(r), id, now, io).0, id);
  }

  lemma SubmitEnters(h: Hub, id: CallId, sub: Submit, used: set<CallId>)
    requires Core(h, used) && id in used && id !in h.entry.submits && id !in h.entry.invokes && id !in h.calls.records
    requires SubmitOk(h.tasks, id, sub) && sub.request.source in h.tasks.store.bySource
    requires AsyncDispatches(h.entry, sub.request.source) == 0
    requires forall x | IsDiscovering(h.entry, x) :: h.entry.submits[x].request.source != sub.request.source
    ensures Core(h.(entry := h.entry.(submits := h.entry.submits[id := sub])), used)
  {
    hide LeasesOk, FlowOk, Effective;
    var e, e' := h.entry, h.entry.(submits := h.entry.submits[id := sub]);
    assert EntryOk(h.tasks, e', h.calls) by { hide DispatchOk, SubmitOk; }
    hide EntryOk, SubmitOk;
    DiscoveryEnters(h.tasks, e, id, sub);
    hide DispatchOk;
  }

  lemma DiscoveryEnters(s: Service, e: Entry, id: CallId, sub: Submit)
    requires DispatchOk(s, e) && id !in e.submits && sub.request.source in s.store.bySource
    requires AsyncDispatches(e, sub.request.source) == 0
    requires forall x | IsDiscovering(e, x) :: e.submits[x].request.source != sub.request.source
    ensures DispatchOk(s, e.(submits := e.submits[id := sub]))
  {
    var e' := e.(submits := e.submits[id := sub]);
    assert forall src :: AsyncDispatches(e', src) == AsyncDispatches(e, src);
    hide AsyncDispatches;
    assert forall x | x != id :: IsDiscovering(e', x) == IsDiscovering(e, x);
    assert forall x | x != id && IsDiscovering(e', x) :: e'.submits[x] == e.submits[x];
  }

  lemma SubmitCapabilityCore(h: Hub, used: set<CallId>, id: CallId, found: bool)
    requires Core(h, used) && IsDiscovering(h.entry, id)
    ensures Core(SubmitCapability(h, id, found), used)
  {
    hide LeasesOk, FlowOk, EntryOk, DispatchOk, Effective;
    SubmitPhaseMoves(h, id, Failing(Preaccept), used);
    if found && !h.closed {
      var h' := SubmitCapability(h, id, found);
      DispatchLeaves(h.tasks, h.entry, id);
      PhaseEntry(h.tasks, h.entry, h'.entry, h.calls);
      assert h'.entry.submits.Keys == h.entry.submits.Keys;
    }
  }

  /** Entering the transport uses up the one dispatch of the source. */
  lemma DispatchLeaves(s: Service, e: Entry, id: CallId)
    requires DispatchOk(s, e) && IsDiscovering(e, id)
    ensures var sub := e.submits[id];
            DispatchOk(s, e.(submits := e.submits[id := sub.(phase := AtTransport)],
                             dispatches := e.dispatches + [Dispatch(sub.request.source, Async)]))
  {
    var sub := e.submits[id];
    var e' := e.(submits := e.submits[id := sub.(phase := AtTransport)],
                 dispatches := e.dispatches + [Dispatch(sub.request.source, Async)]);
    forall src ensures AsyncDispatches(e', src) == AsyncDispatches(e, src) + (if src == sub.request.source then 1 else 0) {
      CountAppend(e.dispatches, Dispatch(sub.request.source, Async), Dispatch(src, Async));
    }
    hide AsyncDispatches;
    assert forall x :: IsDiscovering(e', x) <==> IsDiscovering(e, x) && x != id;
    assert forall x | IsDiscovering(e', x) :: e'.submits[x] == e.submits[x];
  }

  lemma SubmitReplyCore(h: Hub, used: set<CallId>, agentId: string, id: CallId, reply: Reply, now: int, io: Io)
    requires Core(h, used) && id in h.entry.submits && h.entry.submits[id].phase.AtTransport?
    ensures Core(SubmitReply(h, agentId, id, reply, now, io), used)
    ensures reply.Accepted? && !h.closed && reply.snapshot.remoteId !in h.calls.callByRemote ==>
              var s := SubmitReply(h, agentId, id, reply, now, io).tasks;
              && OnlyTask(h.tasks, s, id) && id in Effective(s)
              && AcceptedAs(Effective(s)[id], NewRecord(h.entry.submits[id].request, reply.snapshot, false))
              && id in SubmitReply(h, agentId, id, reply, now, io).calls.taskBacked
  {
    hide LeasesOk, EntryOk, DispatchOk, FlowOk, Effective, AcceptOrRetain, OnlyTask, AcceptedAs;
    SubmitPhaseMoves(h, id, Failing(Preaccept), used);
    SubmitPhaseMoves(h, id, Failing(DispatchUncertain), used);
    SubmitPhaseMoves(h, id, Failing(Shutdown), used);
    SubmitPhaseMoves(h, id, Failing(RemoteConflict), used);
    if reply.Accepted? && !h.closed && reply.snapshot.remoteId !in h.calls.callByRemote {
      var sub := h.entry.submits[id];
      var record := NewRecord(sub.request, reply.snapshot, false);
      SubmitIsReady(h, id, used);
      AcceptLeases(h, agentId, id, sub, record, now, io);
      var h' := SubmitReply(h, agentId, id, reply, now, io);
      var ids := h'.calls.records.Keys;
      FlowOkGrows(h.flow, h.calls.records.Keys, ids);
      StartWatcherSame(h.flow, id, reply.snapshot, ids);
      SameOperationsOk(h.flow, h'.flow, ids);
      TaskMoves(h, h', id, used);
    }
  }

  lemma SubmitIsReady(h: Hub, id: CallId, used: set<CallId>)
    requires Core(h, used) && id in h.entry.submits
    ensures SubmitOk(h.tasks, id, h.entry.submits[id]) && id in used
    ensures h.entry.invokes - {id} == h.entry.invokes && id !in h.calls.records && id !in h.calls.taskBacked
  {
    hide LeasesOk, DispatchOk, FlowOk, SubmitOk, Effective;
  }

  lemma AcceptLeases(h: Hub, agentId: string, id: CallId, sub: Submit, record: Record, now: int, io: Io)
    requires LeasesOk(h.tasks, h.entry.invokes) && SubmitOk(h.tasks, id, sub) && record.source == sub.request.source
    ensures var (s, e) := AcceptOrRetain(h.tasks, agentId, id, sub, record, now, io);
            && e.None? && LeasesOk(s, h.entry.invokes) && OnlyTask(h.tasks, s, id)
            && id in Effective(s) && AcceptedAs(Effective(s)[id], record)
  {
    hide Good, AcceptOrRetain, InvokesOk, HeldBy, Effective, OnlyTask, AcceptedAs, SubmitOk;
    AcceptOrRetainOk(h.tasks, HeldBy(h.entry.invokes), agentId, id, sub, record, now, io);
    OnlyKinds(h.tasks, AcceptOrRetain(h.tasks, agentId, id, sub, record, now, io).0, id);
  }

  lemma SubmitFailCore(h: Hub, used: set<CallId>, agentId: string, id: CallId, text: string, readable: bool, now: int, io: Io)
    requires Core(h, used) && id in h.entry.submits && h.entry.submits[id].phase.Failing?
    ensures Core(SubmitFail(h, agentId, id, text, readable, now, io), used)
    ensures OnlyTask(h.tasks, SubmitFail(h, agentId, id, text, readable, now, io).tasks, id)
  {
    hide LeasesOk, EntryOk, DispatchOk, FlowOk, Effective, Accept, RejectBeforeAcceptance, OnlyTask, Get;
    var h' := SubmitFail(h, agentId, id, text, readable, now, io);
    FailLeases(h, agentId, id, text, readable, now, io);
    SubmitIsReady(h, id, used);
    assert h'.entry.invokes == h.entry.invokes - {id};
    TaskMoves(h, h', id, used);
  }

  lemma FailLeases(h: Hub, agentId: string, id: CallId, text: string, readable: bool, now: int, io: Io)
    requires LeasesOk(h.tasks, h.entry.invokes) && id in h.entry.submits && h.entry.submits[id].phase.Failing?
    ensures var h' := SubmitFail(h, agentId, id, text, readable, now, io);
            LeasesOk(h'.tasks, h.entry.invokes) && OnlyTask(h.tasks, h'.tasks, id)
  {
    var h' := SubmitFail(h, agentId, id, text, readable, now, io);
    var session, why := h.entry.submits[id].request.source.sessionId, h.entry.submits[id].phase.why;
    assert OnlyTask(h.tasks, h.tasks, id);
    hide LeasesOk, Accept, RejectBeforeAcceptance, OnlyTask, Effective, Get, PayloadOf, UncertainReference;
    if why == Preaccept || why == RemoteConflict {
      RejectLeases(h.tasks, h.entry.invokes, session, id, text, now, io);
    } else {
      var reference := if why == DispatchUncertain then Some(UncertainReference(agentId, id, h.entry.submits[id].request)) else None;
      AcceptKeepsLeases(h.tasks, h.entry.invokes, session, id, Update(Unknown, NewPayload(PayloadOf("[]", None)), None), reference, now, io);
    }
  }

  lemma RejectLeases(s: Service, invokes: map<CallId, Invoke>, session: string, id: CallId, text: string, now: int, io: Io)
    requires LeasesOk(s, invokes)
    ensures var s' := RejectBeforeAcceptance(s, session, id, text, now, io).0;
            LeasesOk(s', invokes) && OnlyTask(s, s', id)
  {
    hide Good, RejectBeforeAcceptance, InvokesOk, HeldBy, Moves, OnlyTask, Effective;
    RejectGood(s, HeldBy(invokes), session, id, text, now, io);
    var s' := RejectBeforeAcceptance(s, session, id, text, now, io).0;
    MovesOnly(s, s', id, Rejecting);
    OnlyKinds(s, s', id);
  }

  lemma AcceptKeepsLeases(s: Service, invokes: map<CallId, Invoke>, session: string, id: CallId, u: Update, reference: Option<Reference>, now: int, io: Io)
    requires LeasesOk(s, invokes)
    ensures var s' := Accept(s, session, id, u, reference, now, io).0;
            LeasesOk(s', invokes) && OnlyTask(s, s', id)
  {
    hide Good, Accept, InvokesOk, HeldBy, Moves, OnlyTask, Effective;
    AcceptGood(s, HeldBy(invokes), session, id, u, reference, now, io);
    var s' := Accept(s, session, id, u, reference, now, io).0;
    MovesOnly(s, s', id, Announcing);
    OnlyKinds(s, s', id);
  }

  // ---------------------------------------------------------------- blocking invocation

  lemma InvokeBlockingCore(h: Hub, used: set<CallId>, r: CallRequest, id: CallId, readable: bool)
    requires Core(h, used) && id !in used
    ensures Core(InvokeBlocking(h, r, id, readable), used + {id})
    ensures OnlyTask(h.tasks, InvokeBlocking(h, r, id, readable).tasks, id)
  {
    assert OnlyTask(h.tasks, h.tasks, id);
    hide LeasesOk, EntryOk, DispatchOk, FlowOk, Effective, GetBySource, AddSlot, OnlyTask;
    CoreGrows(h, used, used + {id});
    Unused(h, used, id);
    if Acquire(h.tasks.quota, r.source.sessionId, A2A).1.Ok? && InvokeBlocking(h, r, id, readable) != h {
      InvokeEnters(h, r, id, used + {id});
    }
  }

  lemma InvokeEnters(h: Hub, r: CallRequest, id: CallId, used: set<CallId>)
    requires Core(h, used) && id in used && id !in Effective(h.tasks) && id !in h.calls.records && id !in h.entry.submits && id !in h.entry.invokes
    ensures var (q, lease) := AddSlot(h.tasks.quota, QuotaKey(r.source.sessionId, A2A));
            var h' := h.(tasks := h.tasks.(quota := q),
                         entry := h.entry.(invokes := h.entry.invokes[id := Invoke(r, lease, Discovering)],
                                           blockingBySource := h.entry.blockingBySource[r.source := id]));
            Core(h', used) && OnlyTask(h.tasks, h'.tasks, id)
  {
    hide LeasesOk, EntryOk, DispatchOk, FlowOk, AddSlot, OnlyTask, SubmitOk, Effective;
    var (q, lease) := AddSlot(h.tasks.quota, QuotaKey(r.source.sessionId, A2A));
    var inv := Invoke(r, lease, Discovering);
    var e' := h.entry.(invokes := h.entry.invokes[id := inv], blockingBySource := h.entry.blockingBySource[r.source := id]);
    HoldLeases(h.tasks, h.entry.invokes, id, r);
    InvokeEntry(h.tasks, h.tasks.(quota := q), h.entry, e', h.calls, id, inv);
    assert forall x :: IsDiscovering(e', x) == IsDiscovering(h.entry, x);
    DispatchKept(h.tasks, h.tasks.(quota := q), h.entry, e');
  }

  lemma HoldLeases(s: Service, invokes: map<CallId, Invoke>, id: CallId, r: CallRequest)
    requires LeasesOk(s, invokes) && id !in invokes
    ensures var (q, lease) := AddSlot(s.quota, QuotaKey(r.source.sessionId, A2A));
            && LeasesOk(s.(quota := q), invokes[id := Invoke(r, lease, Discovering)])
            && Effective(s.(quota := q)) == Effective(s) && OnlyTask(s, s.(quota := q), id)
  {
    var key := QuotaKey(r.source.sessionId, A2A);
    var (q, lease) := AddSlot(s.quota, key);
    assert lease.key == key && Effective(s.(quota := q)) == Effective(s);
    hide Good, InvokesOk, HeldBy, AddSlot, Effective;
    HoldGood(s, HeldBy(invokes), key);
    HandlesWith(invokes, id, Invoke(r, lease, Discovering));
  }

  lemma InvokeEntry(s: Service, s': Service, e: Entry, e': Entry, c: Calls, id: CallId, inv: Invoke)
    requires EntryOk(s, e, c) && Effective(s') == Effective(s) && s'.kinds == s.kinds
    requires id !in Effective(s) && id !in c.records && id !in e.submits
    requires e'.submits == e.submits && e'.invokes == e.invokes[id := inv]
    ensures EntryOk(s', e', c)
  {
    hide Effective;
  }

  lemma InvokeCapabilityCore(h: Hub, used: set<CallId>, id: CallId, found: bool)
    requires Core(h, used) && id in h.entry.invokes && h.entry.invokes[id].phase.Discovering?
    ensures Core(InvokeCapability(h, id, found), used)
  {
    hide LeasesOk, EntryOk, DispatchOk, FlowOk, Effective;
    InvokeIsReady(h, id, used);
    SetInvokeOnly(h, id, Failing(Preaccept), used);
    if found && !h.closed {
      var h1 := SetInvokePhase(h, id, AtTransport);
      InvokePhaseMoves(h, id, AtTransport, used);
      BlockingDispatch(h1.tasks, h1.entry, h.entry.invokes[id].request.source);
      EntryIgnoresLog(h1.tasks, h1.entry, h1.entry.(dispatches := h1.entry.dispatches + [Dispatch(h.entry.invokes[id].request.source, Blocking)]), h1.calls);
    }
  }

  lemma SetInvokeOnly(h: Hub, id: CallId, phase: Phase, used: set<CallId>)
    requires Core(h, used) && id in h.entry.invokes && id !in h.calls.records
    ensures Core(SetInvokePhase(h, id, phase), used)
  {
    InvokePhaseMoves(h, id, phase, used);
  }

  lemma EntryIgnoresLog(s: Service, e: Entry, e': Entry, c: Calls)
    requires EntryOk(s, e, c) && e'.submits == e.submits && e'.invokes == e.invokes
    ensures EntryOk(s, e', c)
  {
    hide Effective, SubmitOk;
  }

  lemma BlockingDispatch(s: Service, e: Entry, source: Source)
    requires DispatchOk(s, e)
    ensures DispatchOk(s, e.(dispatches := e.dispatches + [Dispatch(source, Blocking)]))
  {
    var e' := e.(dispatches := e.dispatches + [Dispatch(source, Blocking)]);
    forall src ensures AsyncDispatches(e', src) == AsyncDispatches(e, src) {
      CountAppend(e.dispatches, Dispatch(source, Blocking), Dispatch(src, Async));
    }
    hide AsyncDispatches;
    assert forall x :: IsDiscovering(e', x) == IsDiscovering(e, x);
  }

  lemma InvokeIsReady(h: Hub, id: CallId, used: set<CallId>)
    requires Core(h, used) && id in h.entry.invokes
    ensures h.entry.invokes[id].phase.Waiting? || id !in h.calls.records
    ensures id !in Effective(h.tasks) && id in used && h.entry.submits - {id} == h.entry.submits && id !in h.calls.taskBacked
  {
    hide LeasesOk, DispatchOk, FlowOk, SubmitOk, Effective;
  }

  lemma InvokeReplyCore(h: Hub, used: set<CallId>, id: CallId, reply: Reply)
    requires Core(h, used) && id in h.entry.invokes && h.entry.invokes[id].phase.AtTransport?
    ensures Core(InvokeReply(h, id, reply), used)
  {
    hide LeasesOk, EntryOk, DispatchOk, FlowOk, Effective;
    InvokeIsReady(h, id, used);
    SetInvokeOnly(h, id, Failing(Preaccept), used);
    SetInvokeOnly(h, id, Failing(DispatchUncertain), used);
    SetInvokeOnly(h, id, Failing(Shutdown), used);
    SetInvokeOnly(h, id, Failing(RemoteConflict), used);
    if reply.Accepted? && !h.closed && reply.snapshot.remoteId !in h.calls.callByRemote {
      InvokePhaseMoves(h, id, Waiting, used);
      InvokeRecorded(SetInvokePhase(h, id, Waiting), used, id, reply.snapshot);
    }
  }

  /** A blocking call gets its record while it waits for the outcome. */
  lemma InvokeRecorded(h: Hub, used: set<CallId>, id: CallId, snapshot: Snapshot)
    requires Core(h, used) && id in h.entry.invokes && h.entry.invokes[id].phase.Waiting?
    ensures var record := NewRecord(h.entry.invokes[id].request, snapshot, true);
            Core(h.(calls := RecordCall(h.calls, id, record), flow := StartWatcher(h.flow, id, snapshot)), used)
  {
    hide LeasesOk, DispatchOk, FlowOk, Effective, SubmitOk;
    var record := NewRecord(h.entry.invokes[id].request, snapshot, true);
    var ids := RecordCall(h.calls, id, record).records.Keys;
    FlowOkGrows(h.flow, h.calls.records.Keys, ids);
    StartWatcherSame(h.flow, id, snapshot, ids);
    SameOperationsOk(h.flow, StartWatcher(h.flow, id, snapshot), ids);
    hide SameOperations, StartWatcher;
  }

  lemma InvokeFailCore(h: Hub, used: set<CallId>, agentId: string, id: CallId, now: int, io: Io)
    requires Core(h, used) && id in h.entry.invokes && h.entry.invokes[id].phase.Failing?
    ensures Core(InvokeFail(h, agentId, id, now, io), used)
    ensures OnlyTask(h.tasks, InvokeFail(h, agentId, id, now, io).tasks, id)
  {
    hide LeasesOk, EntryOk, DispatchOk, FlowOk, Effective, Adopt, DropLease, OnlyTask;
    InvokeIsReady(h, id, used);
    InvokeFailLeases(h, agentId, id, now, io);
    TaskMoves(h, InvokeFail(h, agentId, id, now, io), id, used);
  }

  lemma InvokeFailLeases(h: Hub, agentId: string, id: CallId, now: int, io: Io)
    requires LeasesOk(h.tasks, h.entry.invokes) && id in h.entry.invokes && h.entry.invokes[id].phase.Failing? && id !in Effective(h.tasks)
    ensures var s' := InvokeFail(h, agentId, id, now, io).tasks;
            LeasesOk(s', h.entry.invokes - {id}) && OnlyTask(h.tasks, s', id)
  {
    hide Good, Adopt, DropLease, InvokesOk, HeldBy, Moves, OnlyTask, Effective, LiveLeases, PayloadOf, EmptyRequest, UncertainReference, EndInvoke;
    var inv := h.entry.invokes[id];
    HandlesWithout(h.entry.invokes, id);
    GiveBack(h.tasks, h.entry.invokes, id);
    if inv.phase.why == DispatchUncertain {
      var reference := Some(UncertainReference(agentId, id, inv.request));
      AdoptGood(h.tasks, HeldBy(h.entry.invokes), id, EmptyRequest(inv.request), None, inv.lease, reference, now, io);
      var (s', result) := Adopt(h.tasks, id, EmptyRequest(inv.request), None, inv.lease, reference, now, io);
      MovesOnly(h.tasks, s', id, Quiet);
      OnlyKinds(h.tasks, s', id);
    }
  }

  lemma GiveBack(s: Service, invokes: map<CallId, Invoke>, id: CallId)
    requires LeasesOk(s, invokes) && id in invokes
    ensures var s' := DropLease(s, invokes[id].lease);
            LeasesOk(s', invokes - {id}) && OnlyTask(s, s', id) && Effective(s') == Effective(s)
  {
    hide Good, InvokesOk, HeldBy, Release;
    HandlesWithout(invokes, id);
    ReleaseHeldGood(s, HeldBy(invokes), invokes[id].lease);
    assert Effective(DropLease(s, invokes[id].lease)) == Effective(s);
  }

  lemma InvokeDoneCore(h: Hub, used: set<CallId>, id: CallId)
    requires Core(h, used) && id in h.entry.invokes
    ensures Core(InvokeDone(h, id), used) && OnlyTask(h.tasks, InvokeDone(h, id).tasks, id)
  {
    hide LeasesOk, EntryOk, DispatchOk, FlowOk, Effective, DropLease, OnlyTask;
    InvokeIsReady(h, id, used);
    GiveBack(h.tasks, h.entry.invokes, id);
    TaskMoves(h, InvokeDone(h, id), id, used);
  }

  // ---------------------------------------------------------------- applying snapshots

  lemma ApplyService(s: Service, c: Calls, id: CallId, snapshot: Snapshot, now: int, io: Io)
    requires id in c.records
    ensures ApplyOnce(s, c, id, snapshot, now, io).0
         == if id in c.handled || id !in c.taskBacked then s
            else UpdateAccepted(s, c.records[id].source.sessionId, id, UpdateOf(Updated(c.records[id], snapshot)), None, now, io).0
  {
    assert Updated(c.records[id], snapshot).source == c.records[id].source;
    hide UpdateAccepted, Updated, UpdateOf;
  }

  lemma ApplyCalls(s: Service, c: Calls, id: CallId, snapshot: Snapshot, now: int, io: Io)
    requires id in c.records
    ensures var c' := ApplyOnce(s, c, id, snapshot, now, io).1;
            c'.records.Keys == c.records.Keys && c'.taskBacked == c.taskBacked && c'.callByRemote == c.callByRemote
  {
    hide UpdateAccepted, Updated, UpdateOf;
  }

  lemma ApplyLeases(h: Hub, id: CallId, snapshot: Snapshot, now: int, io: Io)
    requires LeasesOk(h.tasks, h.entry.invokes) && id in h.calls.records
    ensures var (s', c', e) := ApplyOnce(h.tasks, h.calls, id, snapshot, now, io);
            && LeasesOk(s', h.entry.invokes) && OnlyTask(h.tasks, s', id) && (id !in h.calls.taskBacked ==> s' == h.tasks)
            && c'.records.Keys == h.calls.records.Keys && c'.taskBacked == h.calls.taskBacked && c'.callByRemote == h.calls.callByRemote
  {
    assert OnlyTask(h.tasks, h.tasks, id);
    hide LeasesOk, UpdateAccepted, OnlyTask, Effective, UpdateOf, Updated, ApplyOnce;
    ApplyCalls(h.tasks, h.calls, id, snapshot, now, io);
    ApplyService(h.tasks, h.calls, id, snapshot, now, io);
    UpdateKeepsLeases(h.tasks, h.entry.invokes, h.calls.records[id].source.sessionId, id,
                      UpdateOf(Updated(h.calls.records[id], snapshot)), now, io);
  }

  lemma UpdateKeepsLeases(s: Service, invokes: map<CallId, Invoke>, session: string, id: CallId, u: Update, now: int, io: Io)
    requires LeasesOk(s, invokes)
    ensures var s' := UpdateAccepted(s, session, id, u, None, now, io).0;
            LeasesOk(s', invokes) && OnlyTask(s, s', id)
  {
    hide Good, UpdateAccepted, InvokesOk, HeldBy, Moves, OnlyTask, Effective;
    UpdateAcceptedGood(s, HeldBy(invokes), session, id, u, None, now, io);
    var s' := UpdateAccepted(s, session, id, u, None, now, io).0;
    MovesOnly(s, s', id, Announcing);
    OnlyKinds(s, s', id);
  }

  /** An attempt changes the facts of one call; the flow it leaves is checked separately. */
  lemma AttemptCore(h: Hub, used: set<CallId>, id: CallId, snapshot: Snapshot, f: Flow, now: int, io: Io)
    requires Core(h, used) && id in h.calls.records && FlowOk(f, h.calls.records.Keys)
    ensures var (s', c', _) := ApplyOnce(h.tasks, h.calls, id, snapshot, now, io);
            Core(h.(tasks := s', calls := c', flow := f), used)
  {
    hide LeasesOk, DispatchOk, FlowOk, EntryOk, Effective, ApplyOnce, OnlyTask;
    var (s', c', _) := ApplyOnce(h.tasks, h.calls, id, snapshot, now, io);
    var h' := h.(tasks := s', calls := c', flow := f);
    ApplyLeases(h, id, snapshot, now, io);
    if id in h.calls.taskBacked {
      BackedIsOver(h, id);
      OnlyTaskStays(h.tasks, s', id);
      TaskMoves(h, h', id, used);
    } else {
      EntrySame(h.tasks, h.entry, h.calls, c');
    }
  }

  lemma BackedIsOver(h: Hub, id: CallId)
    requires EntryOk(h.tasks, h.entry, h.calls) && id in h.calls.taskBacked
    ensures h.entry.submits - {id} == h.entry.submits && h.entry.invokes - {id} == h.entry.invokes
    ensures id in Effective(h.tasks) && id in h.calls.records
  {
    hide Effective, SubmitOk;
  }

  lemma OnlyTaskStays(s: Service, s': Service, id: CallId)
    requires OnlyTask(s, s', id) && id in Effective(s)
    ensures id in Effective(s')
  {
  }

  lemma EntrySame(s: Service, e: Entry, c: Calls, c': Calls)
    requires EntryOk(s, e, c) && c'.records.Keys == c.records.Keys && c'.taskBacked == c.taskBacked
    ensures EntryOk(s, e, c')
  {
    hide Effective, SubmitOk;
  }

  lemma WatchAttemptCore(h: Hub, used: set<CallId>, op: OpId, text: string, now: int, io: Io)
    requires Core(h, used) && op in h.flow.watchers && h.flow.watchers[op].callId in h.calls.records
    requires WatchSnapshot(h.flow.watchers[op]).Some?
    ensures Core(WatchAttempt(h, op, text, now, io), used)
  {
    hide LeasesOk, DispatchOk, FlowOk, EntryOk, Effective, ApplyOnce, SameOperations, IdsUsed, WatchSnapshot, WatchApplied, SetWatchPhase, EndWatcher;
    var h' := WatchAttempt(h, op, text, now, io);
    WatchAttemptSame(h, op, text, now, io);
    SameOperationsOk(h.flow, h'.flow, h.calls.records.Keys);
    AttemptCore(h, used, h.flow.watchers[op].callId, WatchSnapshot(h.flow.watchers[op]).value, h'.flow, now, io);
  }

  lemma CancelAttemptCore(h: Hub, used: set<CallId>, op: OpId, now: int, io: Io)
    requires Core(h, used) && op in h.flow.cancels && h.flow.cancels[op].phase.CancelRecording? && h.flow.cancels[op].callId in h.calls.records
    ensures Core(CancelAttempt(h, op, now, io), used)
  {
    hide LeasesOk, DispatchOk, FlowOk, EntryOk, Effective, ApplyOnce, IdsUsed, EndCancel, AfterApplied;
    CancelAttemptOk(h, op, now, io);
    ApplyKeepsRecords(h, h.flow.cancels[op].callId, h.flow.cancels[op].phase.snapshot, now, io);
    AttemptCore(h, used, h.flow.cancels[op].callId, h.flow.cancels[op].phase.snapshot, CancelAttempt(h, op, now, io).flow, now, io);
  }

  lemma ContinueAttemptCore(h: Hub, used: set<CallId>, op: OpId, now: int, io: Io)
    requires Core(h, used) && op in h.flow.continues && h.flow.continues[op].phase.ContinueRecording?
    requires h.flow.continues[op].phase.callId in h.calls.records
    ensures Core(ContinueAttempt(h, op, now, io), used)
  {
    hide LeasesOk, DispatchOk, FlowOk, EntryOk, Effective, ApplyOnce, IdsUsed, EndContinue, SetContinuePhase;
    ContinueAttemptOk(h, op, now, io);
    AttemptCore(h, used, h.flow.continues[op].phase.callId, h.flow.continues[op].phase.snapshot, ContinueAttempt(h, op, now, io).flow, now, io);
  }

  /** Closing during a continuation puts the paused record back. */
  lemma ContinueFinishCore(h: Hub, used: set<CallId>, op: OpId)
    requires Core(h, used) && op in h.flow.continues && h.flow.continues[op].phase.ContinueRecorded?
    requires h.flow.continues[op].phase.callId in h.calls.records
    ensures Core(ContinueFinish(h, op), used)
  {
    hide LeasesOk, DispatchOk, FlowOk, EntryOk, Effective, EndContinue, SetContinuePhase, StartWatcher;
    ContinueFinishOk(h, op);
    var h' := ContinueFinish(h, op);
    assert h'.calls.records.Keys == h.calls.records.Keys;
    EntrySame(h.tasks, h.entry, h.calls, h'.calls);
  }
}
