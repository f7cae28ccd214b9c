/**
 What holds in every state a Codex task executor can reach, whatever the order of its blocks and of
 the events from outside: workspace slots and threads are not shared, an execution announces one end
 and is silent afterwards, and a reverse request is answered once or discarded once.
 */
module CodexExecutorRuns {
  import opened Common
  import opened CodexExecutor

  // ---------------------------------------------------------------- the invariant

  /** The maps hold their own executions, and every execution that still runs. */
  ghost predicate Slots(x: Executor) {
    && (forall e | e in x.execs :: e < x.next)
    && Filed(x)
    && (forall e | e in x.execs && !x.execs[e].terminal :: Held(x, e))
    && (forall op | op in x.continuing :: x.continuing[op].exec in x.execs)
  }

  ghost predicate Filed(x: Executor) {
    && (forall k | k in x.activeWorkspaces :: x.activeWorkspaces[k] in x.execs && x.execs[x.activeWorkspaces[k]].key == k)
    && (forall t | t in x.executions :: x.executions[t] in x.execs && x.execs[x.executions[t]].taskId == t)
  }

  predicate Held(x: Executor, e: ExecId)
    requires e in x.execs
  {
    && MapHolds(x.activeWorkspaces, x.execs[e].key, e)
    && MapHolds(x.executions, x.execs[e].taskId, e)
    && x.execs[e].phase != Removed
  }

  predicate MapHolds(m: map<string, ExecId>, key: string, e: ExecId) {
    key in m && m[key] == e
  }

  ghost predicate HasFinal(events: seq<Published>, e: ExecId) {
    exists i :: 0 <= i < |events| && events[i].exec == e && events[i].event.Final?
  }

  /** An artifact is shown exactly before a completed status of the same execution. */
  ghost predicate ArtifactsPaired(events: seq<Published>) {
    && (forall i | 0 <= i < |events| && events[i].event == Artifact ::
          i + 1 < |events| && events[i + 1] == Published(events[i].exec, Final(Completed)))
    && (forall i | 0 <= i < |events| && events[i].event == Final(Completed) ::
          0 < i && events[i - 1] == Published(events[i].exec, Artifact))
  }

  ghost predicate QuietAfterFinal(events: seq<Published>) {
    forall i, j | 0 <= i < j < |events| && events[i].event.Final? :: events[j].exec != events[i].exec
  }

  ghost predicate Told(x: Executor) {
    && (forall i | 0 <= i < |x.events| :: x.events[i].exec in x.execs)
    && QuietAfterFinal(x.events)
    && ArtifactsPaired(x.events)
    && (forall e | e in x.execs :: x.execs[e].terminal <==> HasFinal(x.events, e))
  }

  ghost predicate IsPending(x: Executor, s: Stamp) {
    exists e :: e in x.execs && x.execs[e].pending == Some(s)
  }

  /** How often a request was answered or discarded. */
  function Settled(requests: seq<RequestEvent>, s: Stamp): nat {
    Count(requests, Answered(s)) + Count(requests, Discarded(s))
  }

  ghost predicate Accounted(x: Executor, s: Stamp) {
    && Count(x.requests, Taken(s)) <= 1
    && Settled(x.requests, s) + (if IsPending(x, s) then 1 else 0) == Count(x.requests, Taken(s))
    && (x.next <= s ==> Count(x.requests, Taken(s)) == 0)
  }

  ghost predicate Requests(x: Executor) {
    && (forall s: Stamp :: Accounted(x, s))
    && (forall e | e in x.execs && x.execs[e].terminal :: x.execs[e].pending == None)
    && (forall e, f | e in x.execs && f in x.execs && x.execs[e].pending.Some? && x.execs[e].pending == x.execs[f].pending :: e == f)
  }

  ghost predicate Inv(x: Executor) {
    Slots(x) && Told(x) && Requests(x)
  }

  // ---------------------------------------------------------------- blocks that touch none of it

  predicate Alike(a: Execution, b: Execution) {
    && a.taskId == b.taskId && a.key == b.key && a.terminal == b.terminal && a.pending == b.pending
    && (b.phase == Removed ==> a.phase == Removed)
  }

  /** Nothing that the invariant speaks of differs. */
  ghost predicate Same(x: Executor, y: Executor) {
    && y.execs.Keys == x.execs.Keys
    && (forall e | e in x.execs :: Alike(x.execs[e], y.execs[e]))
    && y.activeWorkspaces == x.activeWorkspaces && y.executions == x.executions
    && y.events == x.events && y.requests == x.requests && x.next <= y.next
    && (forall op | op in y.continuing :: y.continuing[op].exec in y.execs)
  }

  lemma SamePending(x: Executor, y: Executor, s: Stamp)
    requires Same(x, y)
    ensures IsPending(x, s) <==> IsPending(y, s)
  {
    forall e | e in x.execs ensures Alike(x.execs[e], y.execs[e]) { }
    if IsPending(x, s) {
      var e :| e in x.execs && x.execs[e].pending == Some(s);
      assert y.execs[e].pending == Some(s);
    }
  }

  lemma SameRequests(x: Executor, y: Executor)
    requires Requests(x) && Same(x, y)
    ensures Requests(y)
  {
    forall s: Stamp ensures Accounted(y, s) {
      SamePending(x, y, s);
      assert Accounted(x, s);
    }
    forall e | e in x.execs ensures Alike(x.execs[e], y.execs[e]) { }
  }

  lemma SameKeeps(x: Executor, y: Executor)
    requires Inv(x) && Same(x, y)
    ensures Inv(y)
  {
    hide Slots, Told, Requests, Same;
    SameRequests(x, y);
    SameSlots(x, y);
    SameTold(x, y);
  }

  lemma SameSlots(x: Executor, y: Executor)
    requires Slots(x) && Same(x, y)
    ensures Slots(y)
  {
    forall e | e in x.execs ensures Alike(x.execs[e], y.execs[e]) { }
    forall e | e in y.execs && !y.execs[e].terminal ensures Held(y, e) { assert Held(x, e); }
  }

  lemma SameTold(x: Executor, y: Executor)
    requires Told(x) && Same(x, y)
    ensures Told(y)
  {
    hide QuietAfterFinal, ArtifactsPaired, HasFinal;
    forall e | e in x.execs ensures Alike(x.execs[e], y.execs[e]) { }
  }

  // ---------------------------------------------------------------- publishing

  lemma FinalAppended(events: seq<Published>, p: Published, e: ExecId)
    ensures HasFinal(events + [p], e) <==> HasFinal(events, e) || (p.exec == e && p.event.Final?)
  {
    var all := events + [p];
    if HasFinal(events, e) {
      var i :| 0 <= i < |events| && events[i].exec == e && events[i].event.Final?;
      assert all[i] == events[i];
    }
    assert all[|events|] == p;
  }

  /** A status that is neither final nor an artifact, of an execution that still runs. */
  lemma PublishTold(x: Executor, e: ExecId, event: Event)
    requires Told(x) && e in x.execs && !x.execs[e].terminal && !event.Final? && event != Artifact
    ensures Told(Publish(x, e, event))
  {
    var y := Publish(x, e, event);
    forall f | f in y.execs ensures y.execs[f].terminal <==> HasFinal(y.events, f) {
      FinalAppended(x.events, Published(e, event), f);
    }
    forall i, j | 0 <= i < j < |y.events| && y.events[i].event.Final? ensures y.events[j].exec != y.events[i].exec {
      assert x.events[i].event.Final?;
      if j == |x.events| { assert HasFinal(x.events, x.events[i].exec); }
    }
    assert ArtifactsPaired(y.events) by { PairedAppended(x.events, Published(e, event)); }
  }

  lemma PairedAppended(events: seq<Published>, p: Published)
    requires ArtifactsPaired(events) && p.event != Artifact && p.event != Final(Completed)
    ensures ArtifactsPaired(events + [p])
  {
    var all := events + [p];
    forall i | 0 <= i < |all| && all[i].event == Artifact
      ensures i + 1 < |all| && all[i + 1] == Published(all[i].exec, Final(Completed))
    {
      assert events[i].event == Artifact;
    }
    forall i | 0 <= i < |all| && all[i].event == Final(Completed)
      ensures 0 < i && all[i - 1] == Published(all[i].exec, Artifact)
    {
      assert events[i].event == Final(Completed);
    }
  }

  lemma PairAppended(events: seq<Published>, e: ExecId)
    requires ArtifactsPaired(events)
    ensures ArtifactsPaired(events + [Published(e, Artifact)] + [Published(e, Final(Completed))])
  {
    var n := |events|;
    var all := events + [Published(e, Artifact)] + [Published(e, Final(Completed))];
    assert all[n] == Published(e, Artifact) && all[n + 1] == Published(e, Final(Completed));
    assert forall i | 0 <= i < n :: all[i] == events[i];
    forall i | 0 <= i < |all| && all[i].event == Artifact
      ensures i + 1 < |all| && all[i + 1] == Published(all[i].exec, Final(Completed))
    {
      if i < n { assert events[i].event == Artifact; }
    }
    forall i | 0 <= i < |all| && all[i].event == Final(Completed)
      ensures 0 < i && all[i - 1] == Published(all[i].exec, Artifact)
    {
      if i < n { assert events[i].event == Final(Completed); }
    }
  }

  lemma PublishKeeps(x: Executor, e: ExecId, event: Event)
    requires Inv(x) && e in x.execs && !x.execs[e].terminal && !event.Final? && event != Artifact
    ensures Inv(Publish(x, e, event))
  {
    hide Told;
    PublishTold(x, e, event);
    var y := Publish(x, e, event);
    forall s: Stamp ensures Accounted(y, s) { assert Accounted(x, s); assert IsPending(x, s) <==> IsPending(y, s); }
  }

  // ---------------------------------------------------------------- finishing

  /** What finishing an execution that still runs changes. */
  lemma FinishEffect(x: Executor, e: ExecId, state: FinalState)
    requires e in x.execs && !x.execs[e].terminal
    ensures Finish(x, e, state) == x.(
      execs := x.execs[e := x.execs[e].(pending := None, terminal := true)],
      requests := x.requests + Dropped(x.execs[e].pending),
      events := x.events + Shown(state, e) + [Published(e, Final(state))])
  { }

  lemma FinishEnded(x: Executor, e: ExecId, state: FinalState)
    requires e in x.execs && x.execs[e].terminal
    ensures Finish(x, e, state) == x
  { }

  lemma FinalsOfFinish(events: seq<Published>, e: ExecId, state: FinalState, f: ExecId)
    ensures HasFinal(events + Shown(state, e) + [Published(e, Final(state))], f) <==> HasFinal(events, f) || f == e
  {
    FinalAppended(events + Shown(state, e), Published(e, Final(state)), f);
    if state == Completed {
      FinalAppended(events, Published(e, Artifact), f);
    } else {
      assert events + Shown(state, e) == events;
    }
  }

  lemma QuietAppended(events: seq<Published>, more: seq<Published>, e: ExecId)
    requires QuietAfterFinal(events) && !HasFinal(events, e)
    requires forall i | 0 <= i < |more| :: more[i].exec == e && (more[i].event.Final? ==> i == |more| - 1)
    ensures QuietAfterFinal(events + more)
  {
    var all := events + more;
    forall i, j | 0 <= i < j < |all| && all[i].event.Final? ensures all[j].exec != all[i].exec {
      assert i < |events|;
      if |events| <= j { assert HasFinal(events, events[i].exec); }
    }
  }

  lemma FinishTold(x: Executor, e: ExecId, state: FinalState)
    requires Told(x) && e in x.execs && !x.execs[e].terminal
    ensures Told(Finish(x, e, state))
  {
    hide Finish, QuietAfterFinal, ArtifactsPaired, HasFinal;
    var y := Finish(x, e, state);
    var more := Shown(state, e) + [Published(e, Final(state))];
    FinishEffect(x, e, state);
    assert y.events == x.events + more;
    QuietAppended(x.events, more, e);
    FinishPaired(x.events, e, state);
    forall f | f in y.execs ensures y.execs[f].terminal <==> HasFinal(y.events, f) {
      FinalsOfFinish(x.events, e, state, f);
    }
  }

  lemma FinishPaired(events: seq<Published>, e: ExecId, state: FinalState)
    requires ArtifactsPaired(events)
    ensures ArtifactsPaired(events + Shown(state, e) + [Published(e, Final(state))])
  {
    hide ArtifactsPaired;
    if state == Completed {
      PairAppended(events, e);
    } else {
      assert events + Shown(state, e) == events;
      PairedAppended(events, Published(e, Final(state)));
    }
  }

  lemma RequestAppended(requests: seq<RequestEvent>, r: RequestEvent, s: Stamp)
    ensures Count(requests + [r], Taken(s)) == Count(requests, Taken(s)) + (if r == Taken(s) then 1 else 0)
    ensures Settled(requests + [r], s) == Settled(requests, s) + (if r == Answered(s) || r == Discarded(s) then 1 else 0)
  {
    CountAppend(requests, r, Taken(s));
    CountAppend(requests, r, Answered(s));
    CountAppend(requests, r, Discarded(s));
  }

  /** One request stops being pending and is settled. */
  lemma SettleRequests(x: Executor, y: Executor, e: ExecId, r: RequestEvent)
    requires Requests(x) && e in x.execs && x.execs[e].pending.Some?
    requires r == Answered(x.execs[e].pending.value) || r == Discarded(x.execs[e].pending.value)
    requires y.execs.Keys == x.execs.Keys && y.requests == x.requests + [r] && x.next <= y.next
    requires y.execs[e].pending == None
    requires forall f | f in x.execs && f != e :: y.execs[f].pending == x.execs[f].pending && y.execs[f].terminal == x.execs[f].terminal
    ensures Requests(y)
  {
    forall s: Stamp ensures Accounted(y, s) {
      assert Accounted(x, s);
      PendingAfterSettling(x, y, e, s);
      RequestAppended(x.requests, r, s);
    }
  }

  lemma PendingAfterSettling(x: Executor, y: Executor, e: ExecId, s: Stamp)
    requires Requests(x) && e in x.execs && y.execs.Keys == x.execs.Keys && y.execs[e].pending == None
    requires forall f | f in x.execs && f != e :: y.execs[f].pending == x.execs[f].pending
    ensures IsPending(y, s) <==> IsPending(x, s) && x.execs[e].pending != Some(s)
  {
    if IsPending(x, s) && x.execs[e].pending != Some(s) {
      var f :| f in x.execs && x.execs[f].pending == Some(s);
      assert y.execs[f].pending == Some(s);
    }
  }

  lemma FinishRequests(x: Executor, e: ExecId, state: FinalState)
    requires Requests(x) && e in x.execs && !x.execs[e].terminal
    ensures Requests(Finish(x, e, state))
  {
    hide Finish, IsPending;
    var ex := x.execs[e];
    var y := Finish(x, e, state);
    FinishEffect(x, e, state);
    if ex.pending.Some? {
      SettleRequests(x, y, e, Discarded(ex.pending.value));
    } else {
      assert y.requests == x.requests;
      forall s: Stamp ensures Accounted(y, s) {
        assert Accounted(x, s);
        PendingAfterSettling(x, y, e, s);
      }
    }
  }

  lemma FinishSlots(x: Executor, e: ExecId, state: FinalState)
    requires Slots(x) && e in x.execs && !x.execs[e].terminal
    ensures Slots(Finish(x, e, state))
  {
    hide Finish;
    FinishEffect(x, e, state);
  }

  lemma FinishKeeps(x: Executor, e: ExecId, state: FinalState)
    requires Inv(x) && e in x.execs
    ensures Inv(Finish(x, e, state)) && Finish(x, e, state).execs.Keys == x.execs.Keys
    ensures Finish(x, e, state).execs[e].terminal
  {
    hide Finish, Slots, Told, Requests;
    if x.execs[e].terminal {
      FinishEnded(x, e, state);
    } else {
      FinishEffect(x, e, state);
      FinishSlots(x, e, state);
      FinishTold(x, e, state);
      FinishRequests(x, e, state);
    }
  }

  lemma {:induction false} FinishAllKeeps(x: Executor, es: seq<ExecId>, state: FinalState)
    requires Inv(x) && forall e | e in es :: e in x.execs
    ensures Inv(FinishAll(x, es, state))
    decreases |es|
  {
    hide Inv, Finish;
    if es != [] {
      var n := |es| - 1;
      FinishAllKeeps(x, es[..n], state);
      FinishKeeps(FinishAll(x, es[..n], state), es[n], state);
    }
  }

  lemma RemovedTold(x: Executor, e: ExecId)
    requires Told(x) && e in x.execs
    ensures Told(Cleanup(x, e))
  { }

  lemma RemovedRequests(x: Executor, e: ExecId)
    requires Requests(x) && e in x.execs
    ensures Requests(Cleanup(x, e))
  {
    var y := Cleanup(x, e);
    forall s: Stamp ensures Accounted(y, s) {
      assert Accounted(x, s);
      if IsPending(x, s) {
        var f :| f in x.execs && x.execs[f].pending == Some(s);
        assert y.execs[f].pending == Some(s);
      }
    }
  }

  lemma RemovedSlots(x: Executor, e: ExecId)
    requires Slots(x) && e in x.execs && x.execs[e].terminal
    ensures Slots(Cleanup(x, e))
  {
    hide Held, Filed;
    var y := Cleanup(x, e);
    RemovedFiled(x, e);
    forall f | f in y.execs && !y.execs[f].terminal ensures Held(y, f) {
      assert f != e && Held(x, f);
      RemovedHeld(x, e, f);
    }
  }

  lemma RemovedFiled(x: Executor, e: ExecId)
    requires Filed(x) && e in x.execs
    ensures Filed(Cleanup(x, e))
  { }

  lemma RemovedHeld(x: Executor, e: ExecId, f: ExecId)
    requires e in x.execs && f in x.execs && f != e && Held(x, f)
    ensures Held(Cleanup(x, e), f)
  { }

  /** Only what has ended is removed. */
  lemma CleanupKeeps(x: Executor, e: ExecId)
    requires Inv(x) && e in x.execs && x.execs[e].terminal
    ensures Inv(Cleanup(x, e))
  {
    hide Slots, Told, Requests, Cleanup;
    RemovedSlots(x, e);
    RemovedTold(x, e);
    RemovedRequests(x, e);
  }

  lemma FailAndRemoveKeeps(x: Executor, e: ExecId)
    requires Inv(x) && e in x.execs
    ensures Inv(FailAndRemove(x, e))
  {
    hide Inv, Finish, Cleanup;
    FinishKeeps(x, e, Failed);
    CleanupKeeps(Finish(x, e, Failed), e);
  }

  // ---------------------------------------------------------------- entering, asking, answering

  function Entered(x: Executor, ex: Execution): Executor {
    Update(x, x.next, ex).(admissions := x.admissions - {ex.key}, activeWorkspaces := x.activeWorkspaces[ex.key := x.next],
      executions := x.executions[ex.taskId := x.next], next := x.next + 1)
  }

  lemma EnterRequests(x: Executor, ex: Execution)
    requires Requests(x) && x.next !in x.execs && ex.pending == None
    ensures Requests(Entered(x, ex))
  {
    var y := Entered(x, ex);
    forall s: Stamp ensures Accounted(y, s) {
      assert Accounted(x, s);
      if IsPending(x, s) {
        var f :| f in x.execs && x.execs[f].pending == Some(s);
        assert y.execs[f].pending == Some(s);
      }
    }
  }

  lemma EnterTold(x: Executor, ex: Execution)
    requires Told(x) && x.next !in x.execs && !ex.terminal
    ensures Told(Entered(x, ex))
  {
    hide QuietAfterFinal, ArtifactsPaired;
  }

  lemma EnterSlots(x: Executor, ex: Execution)
    requires Slots(x) && ex.key !in x.activeWorkspaces && ex.taskId !in x.executions && ex.phase == Validating
    ensures Slots(Entered(x, ex))
  {
    hide Held, Filed;
    var y := Entered(x, ex);
    EnterFiled(x, ex);
    assert Held(y, x.next) by { EnteredHeld(x, ex); }
    forall f | f in x.execs && !x.execs[f].terminal ensures Held(y, f) { assert Held(x, f); StillHeld(x, ex, f); }
  }

  lemma EnterFiled(x: Executor, ex: Execution)
    requires Filed(x) && x.next !in x.execs
    ensures Filed(Entered(x, ex))
  { }

  lemma EnteredHeld(x: Executor, ex: Execution)
    requires ex.phase == Validating
    ensures Held(Entered(x, ex), x.next)
  { }

  lemma StillHeld(x: Executor, ex: Execution, f: ExecId)
    requires f in x.execs && f != x.next && Held(x, f) && ex.key !in x.activeWorkspaces && ex.taskId !in x.executions
    ensures Held(Entered(x, ex), f)
  { }

  lemma NextIsNew(x: Executor)
    requires Slots(x)
    ensures x.next !in x.execs
  { }

  lemma EnterKeeps(x: Executor, ex: Execution)
    requires Inv(x) && ex.key !in x.activeWorkspaces && ex.taskId !in x.executions
    requires !ex.terminal && ex.pending == None && ex.phase == Validating
    ensures Inv(Entered(x, ex))
  {
    hide Slots, Told, Requests, Entered;
    NextIsNew(x);
    EnterSlots(x, ex);
    EnterTold(x, ex);
    EnterRequests(x, ex);
  }

  lemma ExecuteKeeps(x: Executor, taskId: string, key: string, messageId: string, contextId: string)
    requires Inv(x)
    ensures Inv(Execute(x, taskId, key, messageId, contextId))
  {
    hide Inv, FailAndRemove;
    if taskId !in x.executions && !Busy(x, key, messageId) {
      var ex := Execution(taskId, key, contextId, Validating, false, None, None, None, false, false, false, false);
      EnterKeeps(x, ex);
      PublishKeeps(Entered(x, ex), x.next, InitialTask);
      if x.closing { FailAndRemoveKeeps(Publish(Entered(x, ex), x.next, InitialTask), x.next); }
    }
  }

  function Asked(x: Executor, e: ExecId): Executor
    requires e in x.execs
  {
    Update(x, e, x.execs[e].(pending := Some(x.next))).(requests := x.requests + [Taken(x.next)], next := x.next + 1)
  }

  lemma PendingAfterAsking(x: Executor, e: ExecId, s: Stamp)
    requires e in x.execs && x.execs[e].pending == None
    ensures IsPending(Asked(x, e), s) <==> IsPending(x, s) || s == x.next
  {
    var y := Asked(x, e);
    assert y.execs[e].pending == Some(x.next);
    if IsPending(x, s) {
      var f :| f in x.execs && x.execs[f].pending == Some(s);
      assert y.execs[f].pending == Some(s);
    }
  }

  lemma AskRequests(x: Executor, e: ExecId)
    requires Requests(x) && e in x.execs && x.execs[e].pending == None && !x.execs[e].terminal
    ensures Requests(Asked(x, e))
  {
    var y := Asked(x, e);
    assert !IsPending(x, x.next) by { assert Accounted(x, x.next); }
    forall s: Stamp ensures Accounted(y, s) {
      assert Accounted(x, s);
      assert Accounted(x, x.next);
      PendingAfterAsking(x, e, s);
      RequestAppended(x.requests, Taken(x.next), s);
    }
    forall f | f in x.execs && x.execs[f].pending.Some? ensures x.execs[f].pending.value != x.next {
      if x.execs[f].pending.value == x.next { assert IsPending(x, x.next); }
    }
  }

  lemma AskKeeps(x: Executor, e: ExecId)
    requires Inv(x) && e in x.execs && x.execs[e].pending == None && !x.execs[e].terminal
    ensures Inv(Asked(x, e))
  {
    hide Requests, QuietAfterFinal, ArtifactsPaired, HasFinal;
    AskRequests(x, e);
  }

  lemma RequestKeeps(x: Executor, turn: string, thread: string)
    requires Inv(x)
    ensures Inv(Request(x, turn, thread))
  {
    hide Inv, Finish;
    if turn in x.byTurn && x.byTurn[turn] in x.execs {
      var e := x.byTurn[turn];
      var ex := x.execs[e];
      if ex.turnId == Some(turn) && ex.threadId == Some(thread) && !ex.terminal {
        if ex.pending.Some? {
          FinishKeeps(x, e, Failed);
        } else {
          AskKeeps(x, e);
          PublishKeeps(Asked(x, e), e, InputRequired);
        }
      }
    }
  }

  function AnsweredBy(x: Executor, op: OpId): Executor
    requires op in x.continuing && x.continuing[op].exec in x.execs
  {
    var c := x.continuing[op];
    Update(x, c.exec, x.execs[c.exec].(pending := None)).(
      requests := x.requests + [Answered(c.pending)], continuing := x.continuing[op := c.(answering := true)])
  }

  lemma AnsweredSlots(x: Executor, op: OpId)
    requires Slots(x) && op in x.continuing && x.continuing[op].exec in x.execs
    ensures Slots(AnsweredBy(x, op))
  { }

  lemma AnsweredTold(x: Executor, op: OpId)
    requires Told(x) && op in x.continuing && x.continuing[op].exec in x.execs
    ensures Told(AnsweredBy(x, op))
  {
    hide QuietAfterFinal, ArtifactsPaired, HasFinal;
  }

  lemma AnsweredKeeps(x: Executor, op: OpId)
    requires Inv(x) && op in x.continuing && x.continuing[op].exec in x.execs
    requires x.execs[x.continuing[op].exec].pending == Some(x.continuing[op].pending)
    ensures Inv(AnsweredBy(x, op))
  {
    hide Slots, Told, Requests;
    var c := x.continuing[op];
    assert Requests(AnsweredBy(x, op)) by { SettleRequests(x, AnsweredBy(x, op), c.exec, Answered(c.pending)); }
    AnsweredSlots(x, op);
    AnsweredTold(x, op);
  }

  lemma PublishBothKeeps(x: Executor, e: ExecId, first: Event, second: Event)
    requires Inv(x) && e in x.execs && !x.execs[e].terminal
    requires !first.Final? && first != Artifact && !second.Final? && second != Artifact
    ensures Inv(Publish(Publish(x, e, first), e, second))
  {
    hide Inv;
    PublishKeeps(x, e, first);
    PublishKeeps(Publish(x, e, first), e, second);
  }

  lemma WithoutContinuing(x: Executor, op: OpId)
    requires Inv(x)
    ensures Inv(x.(continuing := x.continuing - {op}))
  {
    hide Inv;
    assert forall o | o in x.continuing :: x.continuing[o].exec in x.execs by { ContinuingKnown(x); }
    SameKeeps(x, x.(continuing := x.continuing - {op}));
  }

  lemma ContinuingKnown(x: Executor)
    requires Inv(x)
    ensures forall o | o in x.continuing :: x.continuing[o].exec in x.execs
    ensures forall e | e in x.execs && !x.execs[e].terminal :: x.execs[e].phase != Removed
  { }

  lemma ContinueCheckedKeeps(x: Executor, op: OpId, ok: bool)
    requires Inv(x) && op in x.continuing && x.continuing[op].exec in x.execs
    ensures Inv(ContinueChecked(x, op, ok))
  {
    hide Inv;
    var c := x.continuing[op];
    var ex := x.execs[c.exec];
    WithoutContinuing(x, op);
    if !(ex.terminal || ex.pending != Some(c.pending)) {
      if ok {
        AnsweredKeeps(x, op);
        PublishBothKeeps(AnsweredBy(x, op), c.exec, WorkingTask, Working);
      } else {
        PublishBothKeeps(x.(continuing := x.continuing - {op}), c.exec, InputTask, InputRequired);
      }
    }
  }

  lemma AnswerSettledKeeps(x: Executor, op: OpId, ok: bool)
    requires Inv(x) && op in x.continuing && x.continuing[op].exec in x.execs
    ensures Inv(AnswerSettled(x, op, ok))
  {
    hide Inv, Finish;
    WithoutContinuing(x, op);
    if !ok { FinishKeeps(x.(continuing := x.continuing - {op}), x.continuing[op].exec, Failed); }
  }

  // ---------------------------------------------------------------- the other blocks

  /** One execution changes in what the invariant does not speak of. */
  lemma TouchKeeps(x: Executor, e: ExecId, ex: Execution)
    requires Inv(x) && e in x.execs && Alike(x.execs[e], ex)
    ensures Inv(Update(x, e, ex))
  {
    hide Inv;
    ContinuingKnown(x);
    SameKeeps(x, Update(x, e, ex));
  }

  /** Only the thread and turn maps, the admissions or the closing flag change. */
  lemma IndexKeeps(x: Executor, y: Executor)
    requires Inv(x) && y == x.(byThread := y.byThread, byTurn := y.byTurn, admissions := y.admissions,
      continuationAdmissions := y.continuationAdmissions, closing := y.closing, next := y.next) && x.next <= y.next
    ensures Inv(y)
  {
    hide Inv;
    ContinuingKnown(x);
    SameKeeps(x, y);
  }

  lemma SetTurnKeeps(x: Executor, e: ExecId, turn: string)
    requires Inv(x) && e in x.execs && SetTurn(x, e, turn).Some?
    ensures Inv(SetTurn(x, e, turn).value)
  {
    hide Inv;
    var touched := Update(x, e, x.execs[e].(turnId := Some(turn)));
    TouchKeeps(x, e, x.execs[e].(turnId := Some(turn)));
    IndexKeeps(touched, touched.(byTurn := x.byTurn[turn := e]));
  }

  lemma PublishWorkingKeeps(x: Executor, e: ExecId)
    requires Inv(x) && e in x.execs
    ensures Inv(PublishWorking(x, e))
  {
    hide Inv;
    var ex := x.execs[e];
    if !ex.terminal && !ex.workingPublished {
      TouchKeeps(x, e, ex.(workingPublished := true));
      PublishKeeps(Update(x, e, ex.(workingPublished := true)), e, Working);
    }
  }

  lemma ValidatedKeeps(x: Executor, e: ExecId, ok: bool)
    requires Inv(x) && e in x.execs && x.execs[e].phase != Removed
    ensures Inv(Validated(x, e, ok)) && Inv(Revalidated(x, e, ok))
  {
    hide Inv, FailAndRemove, Cleanup;
    FailAndRemoveKeeps(x, e);
    if x.execs[e].terminal {
      CleanupKeeps(x, e);
    } else {
      TouchKeeps(x, e, x.execs[e].(phase := CreatingThread));
      TouchKeeps(x, e, x.execs[e].(turnStarting := true, phase := StartingTurn));
    }
  }

  lemma ThreadReadyKeeps(x: Executor, e: ExecId, thread: Option<string>)
    requires Inv(x) && e in x.execs
    ensures Inv(ThreadReady(x, e, thread))
  {
    hide Inv, FailAndRemove, Cleanup;
    if thread.None? {
      FailAndRemoveKeeps(x, e);
    } else {
      var named := Update(x, e, x.execs[e].(threadId := thread));
      TouchKeeps(x, e, x.execs[e].(threadId := thread));
      if x.execs[e].terminal {
        CleanupKeeps(named, e);
      } else if thread.value in x.byThread {
        FailAndRemoveKeeps(named, e);
      } else {
        var going := Update(named, e, named.execs[e].(phase := Revalidating));
        TouchKeeps(named, e, named.execs[e].(phase := Revalidating));
        IndexKeeps(going, going.(byThread := x.byThread[thread.value := e]));
      }
    }
  }

  lemma TurnSettledKeeps(x: Executor, e: ExecId, turn: Option<string>)
    requires Inv(x) && e in x.execs
    ensures Inv(TurnSettled(x, e, turn))
  {
    hide Inv, FailAndRemove, SetTurn, PublishWorking;
    var outcome := if turn.None? then None else SetTurn(x, e, turn.value);
    if outcome.Some? {
      SetTurnKeeps(x, e, turn.value);
      PublishWorkingKeeps(outcome.value, e);
      var z := PublishWorking(outcome.value, e);
      TouchKeeps(z, e, z.execs[e].(phase := AwaitingEnd));
    } else if x.execs[e].turnStarting && !x.execs[e].terminal {
      IndexKeeps(x, x.(closing := true));
      TouchKeeps(x.(closing := true), e, x.execs[e].(phase := Stopping));
    } else {
      FailAndRemoveKeeps(x, e);
    }
  }

  lemma StopAllKeeps(x: Executor, es: seq<ExecId>, closing: bool)
    requires Inv(x) && forall e | e in es :: e in x.execs
    ensures Inv(StopAll(x, es, closing))
  {
    hide Inv, FinishAll;
    var y := x.(closing := x.closing || closing);
    IndexKeeps(x, y);
    FinishAllKeeps(y, es, Failed);
  }

  lemma CancelKeeps(x: Executor, taskId: string)
    requires Inv(x)
    ensures Inv(Cancel(x, taskId))
  {
    hide Inv, Finish;
    if taskId in x.executions && x.executions[taskId] in x.execs && !x.execs[x.executions[taskId]].terminal {
      var e := x.executions[taskId];
      TouchKeeps(x, e, x.execs[e].(cancelRequested := true));
      FinishKeeps(Update(x, e, x.execs[e].(cancelRequested := true)), e, Canceled);
    }
  }

  lemma CloseOneKeeps(x: Executor, e: ExecId)
    requires Inv(x) && e in x.execs
    ensures Inv(CloseOne(x, e))
  {
    hide Inv, Finish;
    FinishKeeps(x, e, Canceled);
    TouchKeeps(x, e, x.execs[e].(cancelRequested := true));
  }

  lemma {:induction false} CloseEachKeeps(x: Executor, es: seq<ExecId>)
    requires Inv(x) && forall e | e in es :: e in x.execs
    ensures Inv(CloseEach(x, es))
    decreases |es|
  {
    hide Inv, CloseOne;
    if es != [] {
      var n := |es| - 1;
      CloseEachKeeps(x, es[..n]);
      CloseOneKeeps(CloseEach(x, es[..n]), es[n]);
    }
  }

  lemma ContinueKeeps(x: Executor, taskId: string, contextId: string)
    requires Inv(x)
    ensures Inv(Continue(x, taskId, contextId))
  {
    hide Inv;
    ContinuingKnown(x);
    if Continue(x, taskId, contextId) != x { SameKeeps(x, Continue(x, taskId, contextId)); }
  }

  lemma NotifiedKeeps(x: Executor, e: ExecId, n: Notification)
    requires Inv(x) && e in x.execs
    ensures Inv(Notified(x, e, n))
  {
    hide Inv, Finish, SetTurn, PublishWorking;
    match n
    case TurnStarted(turn) =>
      if SetTurn(x, e, turn).Some? {
        SetTurnKeeps(x, e, turn);
        PublishWorkingKeeps(SetTurn(x, e, turn).value, e);
      }
    case ItemStarted => PublishWorkingKeeps(x, e);
    case TurnEnded(ended, status) =>
      var outcome := if ended.None? then Some(x) else SetTurn(x, e, ended.value);
      if outcome.Some? {
        var y := outcome.value;
        if ended.Some? { SetTurnKeeps(x, e, ended.value); }
        TouchKeeps(y, e, y.execs[e].(completionPending := true));
        FinishKeeps(y, e, Canceled);
        FinishKeeps(y, e, Failed);
      }
  }

  // ---------------------------------------------------------------- runs

  lemma AdmissionKeeps(x: Executor, key: string, messageId: string)
    requires Inv(x)
    ensures Inv(Admit(x, key, messageId))
  {
    hide Inv;
    IndexKeeps(x, Admit(x, key, messageId));
  }

  lemma ReleaseKeeps(x: Executor, key: string, token: nat)
    requires Inv(x)
    ensures Inv(ReleaseAdmission(x, key, token))
  {
    hide Inv;
    IndexKeeps(x, ReleaseAdmission(x, key, token));
  }

  lemma AdmitContinuationOnly(x: Executor, taskId: string)
    ensures AdmitContinuation(x, taskId) == x.(continuationAdmissions := AdmitContinuation(x, taskId).continuationAdmissions)
    ensures ReleaseContinuation(x, taskId) == x.(continuationAdmissions := ReleaseContinuation(x, taskId).continuationAdmissions)
  { }

  lemma ContinuationsKeep(x: Executor, taskId: string)
    requires Inv(x)
    ensures Inv(AdmitContinuation(x, taskId)) && Inv(ReleaseContinuation(x, taskId))
  {
    hide Inv, AdmitContinuation, ReleaseContinuation;
    AdmitContinuationOnly(x, taskId);
    IndexKeeps(x, AdmitContinuation(x, taskId));
    IndexKeeps(x, ReleaseContinuation(x, taskId));
  }

  lemma PerformKeeps(x: Executor, step: Step)
    requires Inv(x) && Enabled(x, step)
    ensures Inv(Perform(x, step))
  {
    hide Inv, Execute, Validated, Revalidated, ThreadReady, TurnSettled, FailAndRemove, StopAll, Finish, Admit, ReleaseAdmission,
      AdmitContinuation, ReleaseContinuation, Cancel, CloseEach, Continue, ContinueChecked, AnswerSettled, Notified, Request;
    match step
    case ExecuteStep(taskId, key, messageId, contextId) => ExecuteKeeps(x, taskId, key, messageId, contextId);
    case ValidatedStep(e, ok) => ValidatedKeeps(x, e, ok);
    case ThreadStep(e, thread) => ThreadReadyKeeps(x, e, thread);
    case RevalidatedStep(e, ok) => ValidatedKeeps(x, e, ok);
    case TurnStep(e, turn) => TurnSettledKeeps(x, e, turn);
    case EndStep(e) => FailAndRemoveKeeps(x, e);
    case StopAllStep(order, closes) => StopAllKeeps(x, order, closes);
    case FinishStep(e, state) => FinishKeeps(x, e, state);
    case AdmitStep(key, messageId) => AdmissionKeeps(x, key, messageId);
    case ReleaseAdmissionStep(key, token) => ReleaseKeeps(x, key, token);
    case AdmitContinuationStep(taskId) => ContinuationsKeep(x, taskId);
    case ReleaseContinuationStep(taskId) => ContinuationsKeep(x, taskId);
    case CancelStep(taskId) => CancelKeeps(x, taskId);
    case CloseStep(order) =>
      IndexKeeps(x, x.(closing := true));
      CloseEachKeeps(x.(closing := true), order);
    case ContinueStep(taskId, contextId) => ContinueKeeps(x, taskId, contextId);
    case ContinueCheckedStep(op, ok) => ContinueCheckedKeeps(x, op, ok);
    case AnswerStep(op, ok) => AnswerSettledKeeps(x, op, ok);
    case NotifyStep(turn, thread, n) => NotifiedKeeps(x, FindExecution(x, turn, thread).value, n);
    case CompleteStep(e, ok) => FinishKeeps(x, e, if ok then Completed else Failed);
    case RequestStep(turn, thread) => RequestKeeps(x, turn, thread);
  }

  lemma {:induction false} RunKeeps(steps: seq<Step>)
    ensures Inv(Run(steps))
  {
    if steps == [] {
      StartHolds();
    } else {
      hide Inv, Perform, Enabled;
      var n := |steps| - 1;
      RunKeeps(steps[..n]);
      if Enabled(Run(steps[..n]), steps[n]) { PerformKeeps(Run(steps[..n]), steps[n]); }
    }
  }

  lemma StartHolds()
    ensures Inv(START)
  {
    forall s: Stamp ensures Accounted(START, s) { }
  }

  // ---------------------------------------------------------------- threads

  predicate OnThread(phase: Phase) {
    phase == Revalidating || phase == StartingTurn || phase == AwaitingEnd || phase == Stopping
  }

  predicate ThreadHeld(x: Executor, e: ExecId)
    requires e in x.execs
  {
    x.execs[e].threadId.Some? && MapHolds(x.byThread, x.execs[e].threadId.value, e)
  }

  ghost predicate ThreadsHeld(x: Executor) {
    forall e | e in x.execs && OnThread(x.execs[e].phase) :: ThreadHeld(x, e)
  }

  ghost predicate SameThreads(x: Executor, y: Executor) {
    && y.byThread == x.byThread
    && forall e | e in y.execs && OnThread(y.execs[e].phase) ::
         e in x.execs && OnThread(x.execs[e].phase) && y.execs[e].threadId == x.execs[e].threadId
  }

  lemma ThreadsThrough(x: Executor, y: Executor, z: Executor)
    requires SameThreads(x, y) && SameThreads(y, z)
    ensures SameThreads(x, z)
  { }

  lemma SetTurnThreads(x: Executor, e: ExecId, turn: string)
    requires e in x.execs && SetTurn(x, e, turn).Some?
    ensures SameThreads(x, SetTurn(x, e, turn).value) && SetTurn(x, e, turn).value.execs[e].phase == x.execs[e].phase
  { }

  lemma PublishWorkingThreads(x: Executor, e: ExecId)
    requires e in x.execs
    ensures SameThreads(x, PublishWorking(x, e)) && PublishWorking(x, e).execs[e].phase == x.execs[e].phase
  {
    var ex := x.execs[e];
    if ex.terminal || ex.workingPublished {
      ThreadsSelf(x);
    } else {
      Touched(x, e, ex.(workingPublished := true));
    }
  }

  lemma FinishThreads(x: Executor, e: ExecId, state: FinalState)
    requires e in x.execs
    ensures SameThreads(x, Finish(x, e, state)) && e in Finish(x, e, state).execs
  {
    if !x.execs[e].terminal {
      FinishEffect(x, e, state);
    }
  }

  lemma {:induction false} FinishAllThreads(x: Executor, es: seq<ExecId>, state: FinalState)
    requires forall e | e in es :: e in x.execs
    ensures SameThreads(x, FinishAll(x, es, state))
    decreases |es|
  {
    hide Finish;
    if es != [] {
      FinishAllThreads(x, es[..|es| - 1], state);
      FinishThreads(FinishAll(x, es[..|es| - 1], state), es[|es| - 1], state);
    }
  }

  lemma CloseOneThreads(x: Executor, e: ExecId)
    requires e in x.execs
    ensures SameThreads(x, CloseOne(x, e))
  {
    hide Finish;
    FinishThreads(x, e, Canceled);
  }

  lemma {:induction false} CloseEachThreads(x: Executor, es: seq<ExecId>)
    requires forall e | e in es :: e in x.execs
    ensures SameThreads(x, CloseEach(x, es))
    decreases |es|
  {
    hide CloseOne;
    if es != [] {
      var y := CloseEach(x, es[..|es| - 1]);
      CloseEachThreads(x, es[..|es| - 1]);
      CloseOneThreads(y, es[|es| - 1]);
      ThreadsThrough(x, y, CloseEach(x, es));
    }
  }

  lemma RemovedThreads(x: Executor, e: ExecId)
    requires ThreadsHeld(x) && e in x.execs
    ensures ThreadsHeld(Cleanup(x, e))
  {
    var y := Cleanup(x, e);
    forall f | f in y.execs && OnThread(y.execs[f].phase) ensures ThreadHeld(y, f) {
      assert f != e && ThreadHeld(x, f);
    }
  }

  lemma FailAndRemoveThreads(x: Executor, e: ExecId)
    requires ThreadsHeld(x) && e in x.execs
    ensures ThreadsHeld(FailAndRemove(x, e))
  {
    hide Finish, Cleanup;
    FinishThreads(x, e, Failed);
    RemovedThreads(Finish(x, e, Failed), e);
  }

  lemma ExecuteThreads(x: Executor, taskId: string, key: string, messageId: string, contextId: string)
    requires ThreadsHeld(x) && x.next !in x.execs
    ensures ThreadsHeld(Execute(x, taskId, key, messageId, contextId))
  {
    hide FailAndRemove;
    if taskId !in x.executions && !Busy(x, key, messageId) {
      var ex := Execution(taskId, key, contextId, Validating, false, None, None, None, false, false, false, false);
      var entered := Publish(Entered(x, ex), x.next, InitialTask);
      assert SameThreads(x, entered);
      if x.closing { FailAndRemoveThreads(entered, x.next); }
    }
  }

  lemma ThreadReadyThreads(x: Executor, e: ExecId, thread: Option<string>)
    requires ThreadsHeld(x) && InPhase(x, e, CreatingThread)
    ensures ThreadsHeld(ThreadReady(x, e, thread))
  {
    hide FailAndRemove, Cleanup;
    if thread.None? {
      FailAndRemoveThreads(x, e);
    } else {
      var named := Update(x, e, x.execs[e].(threadId := thread));
      assert SameThreads(x, named);
      if x.execs[e].terminal {
        RemovedThreads(named, e);
      } else if thread.value in x.byThread {
        FailAndRemoveThreads(named, e);
      } else {
        var y := ThreadReady(x, e, thread);
        forall f | f in y.execs && OnThread(y.execs[f].phase) ensures ThreadHeld(y, f) {
          if f != e { assert ThreadHeld(x, f); }
        }
      }
    }
  }

  lemma TurnThreads(x: Executor, e: ExecId, turn: Option<string>)
    requires ThreadsHeld(x) && InPhase(x, e, StartingTurn)
    ensures ThreadsHeld(TurnSettled(x, e, turn))
  {
    hide FailAndRemove, SetTurn, PublishWorking, ThreadsHeld;
    if turn.None? || SetTurn(x, e, turn.value).None? {
      FailAndRemoveThreads(x, e);
      Touched(x.(closing := true), e, x.execs[e].(phase := Stopping));
      ThreadsStay(x, x.(closing := true));
      ThreadsStay(x.(closing := true), Update(x.(closing := true), e, x.execs[e].(phase := Stopping)));
    } else {
      var y := SetTurn(x, e, turn.value).value;
      var z := PublishWorking(y, e);
      SetTurnThreads(x, e, turn.value);
      PublishWorkingThreads(y, e);
      ThreadsThrough(x, y, z);
      Touched(z, e, z.execs[e].(phase := AwaitingEnd));
      ThreadsThrough(x, z, TurnSettled(x, e, turn));
      ThreadsStay(x, TurnSettled(x, e, turn));
    }
  }

  lemma ThreadsStay(x: Executor, y: Executor)
    requires ThreadsHeld(x) && SameThreads(x, y)
    ensures ThreadsHeld(y)
  {
    forall e | e in y.execs && OnThread(y.execs[e].phase) ensures ThreadHeld(y, e) { assert ThreadHeld(x, e); }
  }

  lemma ContinueCheckedThreads(x: Executor, op: OpId, ok: bool)
    requires op in x.continuing && x.continuing[op].exec in x.execs
    ensures SameThreads(x, ContinueChecked(x, op, ok))
  {
    hide SameThreads;
    var e := x.continuing[op].exec;
    var y := ContinueChecked(x, op, ok);
    ThreadsAlike(x, Update(x, e, x.execs[e].(pending := None)), y, e);
    ThreadsAlike(x, x, y, e);
  }

  lemma ThreadsAlike(x: Executor, z: Executor, y: Executor, e: ExecId)
    requires e in x.execs && (z == x || z == Update(x, e, x.execs[e].(pending := None)))
    ensures y.execs == z.execs && y.byThread == x.byThread ==> SameThreads(x, y)
  {
    Touched(x, e, x.execs[e].(pending := None));
    ThreadsSelf(x);
  }

  lemma AnswerThreads(x: Executor, op: OpId, ok: bool)
    requires op in x.continuing && x.continuing[op].exec in x.execs
    ensures SameThreads(x, AnswerSettled(x, op, ok))
  {
    hide Finish;
    var over := x.(continuing := x.continuing - {op});
    FinishThreads(over, x.continuing[op].exec, Failed);
    assert SameThreads(x, over);
  }

  lemma RequestThreads(x: Executor, turn: string, thread: string)
    ensures SameThreads(x, Request(x, turn, thread))
  {
    hide SameThreads, Finish, Publish, Update;
    ThreadsSelf(x);
    if turn in x.byTurn && x.byTurn[turn] in x.execs {
      FinishThreads(x, x.byTurn[turn], Failed);
      AskedThreads(x, x.byTurn[turn]);
    }
  }

  lemma AskedThreads(x: Executor, e: ExecId)
    requires e in x.execs
    ensures SameThreads(x, Publish(Asked(x, e), e, InputRequired))
  {
    Touched(x, e, x.execs[e].(pending := Some(x.next)));
  }

  lemma NotifiedThreads(x: Executor, e: ExecId, n: Notification)
    requires e in x.execs
    ensures SameThreads(x, Notified(x, e, n))
  {
    hide Finish, SetTurn, PublishWorking, SameThreads;
    assert SameThreads(x, x) by { ThreadsSelf(x); }
    match n
    case TurnStarted(turn) =>
      if SetTurn(x, e, turn).Some? {
        SetTurnThreads(x, e, turn);
        PublishWorkingThreads(SetTurn(x, e, turn).value, e);
        ThreadsThrough(x, SetTurn(x, e, turn).value, PublishWorking(SetTurn(x, e, turn).value, e));
      }
    case ItemStarted => PublishWorkingThreads(x, e);
    case TurnEnded(ended, status) =>
      if ended.None? {
        EndedThreads(x, x, e, n);
      } else if SetTurn(x, e, ended.value).Some? {
        SetTurnThreads(x, e, ended.value);
        EndedThreads(x, SetTurn(x, e, ended.value).value, e, n);
      }
  }

  lemma ThreadsSelf(x: Executor)
    ensures SameThreads(x, x)
  { }

  lemma Touched(x: Executor, e: ExecId, ex: Execution)
    requires e in x.execs && ex.threadId == x.execs[e].threadId && (OnThread(ex.phase) ==> OnThread(x.execs[e].phase))
    ensures SameThreads(x, Update(x, e, ex))
  { }

  lemma EndedThreads(x: Executor, y: Executor, e: ExecId, n: Notification)
    requires SameThreads(x, y) && e in x.execs && e in y.execs && n.TurnEnded?
    requires y == (if n.ended.None? then x else if SetTurn(x, e, n.ended.value).Some? then SetTurn(x, e, n.ended.value).value else x)
    requires n.ended.Some? ==> SetTurn(x, e, n.ended.value).Some?
    ensures SameThreads(x, Notified(x, e, n))
  {
    hide Finish, SetTurn, SameThreads;
    FinishThreads(y, e, Canceled);
    FinishThreads(y, e, Failed);
    Touched(y, e, y.execs[e].(completionPending := true));
    ThreadsSelf(y);
    ThreadsThrough(x, y, Notified(x, e, n));
  }

  lemma StoppedThreads(x: Executor, order: seq<ExecId>, closes: bool)
    requires ThreadsHeld(x) && forall e | e in order :: e in x.execs
    ensures ThreadsHeld(StopAll(x, order, closes)) && ThreadsHeld(Close(x, order))
  {
    hide FinishAll, CloseEach;
    var y := x.(closing := x.closing || closes);
    var z := x.(closing := true);
    FinishAllThreads(y, order, Failed);
    CloseEachThreads(z, order);
    ThreadsStay(y, FinishAll(y, order, Failed));
    ThreadsStay(z, CloseEach(z, order));
  }

  lemma CancelThreads(x: Executor, taskId: string)
    ensures SameThreads(x, Cancel(x, taskId))
  {
    hide Finish, SameThreads;
    ThreadsSelf(x);
    if taskId in x.executions && x.executions[taskId] in x.execs {
      var e := x.executions[taskId];
      var asked := Update(x, e, x.execs[e].(cancelRequested := true));
      Touched(x, e, x.execs[e].(cancelRequested := true));
      FinishThreads(asked, e, Canceled);
      ThreadsThrough(x, asked, Finish(asked, e, Canceled));
    }
  }

  lemma ValidatedThreads(x: Executor, e: ExecId, ok: bool)
    requires ThreadsHeld(x) && e in x.execs
    ensures InPhase(x, e, Validating) ==> ThreadsHeld(Validated(x, e, ok))
    ensures InPhase(x, e, Revalidating) ==> ThreadsHeld(Revalidated(x, e, ok))
  {
    hide FailAndRemove, Cleanup, ThreadsHeld, SameThreads;
    FailAndRemoveThreads(x, e);
    RemovedThreads(x, e);
    Touched(x, e, x.execs[e].(phase := CreatingThread));
    ThreadsStay(x, Update(x, e, x.execs[e].(phase := CreatingThread)));
    if InPhase(x, e, Revalidating) {
      Touched(x, e, x.execs[e].(turnStarting := true, phase := StartingTurn));
      ThreadsStay(x, Update(x, e, x.execs[e].(turnStarting := true, phase := StartingTurn)));
    }
  }

  lemma PerformThreads(x: Executor, step: Step)
    requires ThreadsHeld(x) && Enabled(x, step) && x.next !in x.execs
    ensures ThreadsHeld(Perform(x, step))
  {
    hide Execute, ThreadReady, TurnSettled, FailAndRemove, Finish, StopAll, Close, Cancel, Continue, ContinueChecked, AnswerSettled,
      Notified, Request, Validated, Revalidated, ThreadsHeld, SameThreads;
    var y := Perform(x, step);
    match step
    case ExecuteStep(taskId, key, messageId, contextId) => ExecuteThreads(x, taskId, key, messageId, contextId);
    case ValidatedStep(e, ok) => ValidatedThreads(x, e, ok);
    case ThreadStep(e, thread) => ThreadReadyThreads(x, e, thread);
    case RevalidatedStep(e, ok) => ValidatedThreads(x, e, ok);
    case TurnStep(e, turn) => TurnThreads(x, e, turn);
    case EndStep(e) => FailAndRemoveThreads(x, e);
    case StopAllStep(order, closes) => StoppedThreads(x, order, closes);
    case CloseStep(order) => StoppedThreads(x, order, false);
    case FinishStep(e, state) => FinishThreads(x, e, state); ThreadsStay(x, y);
    case CompleteStep(e, ok) => FinishThreads(x, e, if ok then Completed else Failed); ThreadsStay(x, y);
    case CancelStep(taskId) => CancelThreads(x, taskId); ThreadsStay(x, y);
    case ContinueCheckedStep(op, ok) => ContinueCheckedThreads(x, op, ok); ThreadsStay(x, y);
    case AnswerStep(op, ok) => AnswerThreads(x, op, ok); ThreadsStay(x, y);
    case NotifyStep(turn, thread, n) => NotifiedThreads(x, FindExecution(x, turn, thread).value, n); ThreadsStay(x, y);
    case RequestStep(turn, thread) => RequestThreads(x, turn, thread); ThreadsStay(x, y);
    case _ => NeutralThreads(x, step);
  }

  lemma NeutralThreads(x: Executor, step: Step)
    requires ThreadsHeld(x) && Enabled(x, step)
    requires step.AdmitStep? || step.ReleaseAdmissionStep? || step.AdmitContinuationStep? || step.ReleaseContinuationStep? || step.ContinueStep?
    ensures ThreadsHeld(Perform(x, step))
  {
    hide ThreadsHeld, SameThreads;
    assert Perform(x, step).execs == x.execs && Perform(x, step).byThread == x.byThread;
    assert SameThreads(x, Perform(x, step)) by { SameMaps(x, Perform(x, step)); }
    ThreadsStay(x, Perform(x, step));
  }

  lemma SameMaps(x: Executor, y: Executor)
    requires y.execs == x.execs && y.byThread == x.byThread
    ensures SameThreads(x, y)
  { }

  lemma {:induction false} RunHoldsThreads(steps: seq<Step>)
    ensures ThreadsHeld(Run(steps))
  {
    if steps != [] {
      hide Inv, Perform, Enabled, ThreadsHeld;
      var x := Run(steps[..|steps| - 1]);
      RunHoldsThreads(steps[..|steps| - 1]);
      RunKeeps(steps[..|steps| - 1]);
      assert x.next !in x.execs by { NextUnused(x); }
      if Enabled(x, steps[|steps| - 1]) { PerformThreads(x, steps[|steps| - 1]); }
    }
  }

  lemma NextUnused(x: Executor)
    requires Inv(x)
    ensures x.next !in x.execs
  { }

  // ---------------------------------------------------------------- the claims

  /** Two executions that have their threads and are not removed work on different threads. */
  lemma ThreadsAreNotShared(steps: seq<Step>, e: ExecId, f: ExecId)
    requires e in Run(steps).execs && f in Run(steps).execs && e != f
    requires OnThread(Run(steps).execs[e].phase) && OnThread(Run(steps).execs[f].phase)
    ensures Run(steps).execs[e].threadId.Some? && Run(steps).execs[f].threadId.Some?
    ensures Run(steps).execs[e].threadId != Run(steps).execs[f].threadId
  {
    RunHoldsThreads(steps);
    assert ThreadHeld(Run(steps), e) && ThreadHeld(Run(steps), f);
  }

  /**
   Of one workspace at most one execution runs, of one task too; what runs is still held by both maps,
   so whatever was removed has ended.
   */
  lemma OneRunsPerWorkspace(steps: seq<Step>, e: ExecId, f: ExecId)
    requires e in Run(steps).execs && f in Run(steps).execs
    requires !Run(steps).execs[e].terminal
    ensures Run(steps).execs[e].phase != Removed
    ensures MapHolds(Run(steps).activeWorkspaces, Run(steps).execs[e].key, e) && MapHolds(Run(steps).executions, Run(steps).execs[e].taskId, e)
    ensures !Run(steps).execs[f].terminal && e != f ==>
      Run(steps).execs[e].key != Run(steps).execs[f].key && Run(steps).execs[e].taskId != Run(steps).execs[f].taskId
  {
    RunKeeps(steps);
  }

  /** The events of one execution: at most one final status, and it is the last of them. */
  lemma OneFinalAndLast(steps: seq<Step>, e: ExecId)
    requires e in Run(steps).execs
    ensures Run(steps).execs[e].terminal <==> HasFinal(Run(steps).events, e)
    ensures forall i, j | 0 <= i < |Run(steps).events| && 0 <= j < |Run(steps).events|
              && Run(steps).events[i].exec == e && Run(steps).events[i].event.Final? && Run(steps).events[j].exec == e :: j <= i
    ensures ArtifactsPaired(Run(steps).events)
  {
    RunKeeps(steps);
  }

  /**
   A request taken as pending input is never answered twice, nor discarded twice, nor both; it is still
   unsettled exactly while some execution holds it, and an execution that ended holds none.
   */
  lemma RequestsSettleOnce(steps: seq<Step>, s: Stamp)
    ensures Count(Run(steps).requests, Taken(s)) <= 1
    ensures Settled(Run(steps).requests, s) <= Count(Run(steps).requests, Taken(s))
    ensures Settled(Run(steps).requests, s) < Count(Run(steps).requests, Taken(s)) <==> IsPending(Run(steps), s)
    ensures forall e | e in Run(steps).execs && Run(steps).execs[e].pending == Some(s) :: !Run(steps).execs[e].terminal
  {
    RunKeeps(steps);
    assert Accounted(Run(steps), s);
  }

  // ---------------------------------------------------------------- answers

  /** No request is answered between two states. */
  ghost predicate SameAnswers(x: Executor, y: Executor) {
    forall s: Stamp :: Count(y.requests, Answered(s)) == Count(x.requests, Answered(s))
  }

  /** Whatever is pending afterwards was pending before. */
  ghost predicate Shrinks(x: Executor, y: Executor) {
    forall e | e in y.execs && y.execs[e].pending.Some? :: e in x.execs && x.execs[e].pending == y.execs[e].pending
  }

  /** No request is answered and none is taken as pending input. */
  ghost predicate Quiet(x: Executor, y: Executor) {
    SameAnswers(x, y) && Shrinks(x, y)
  }

  lemma AddedQuiet(x: Executor, y: Executor, r: RequestEvent)
    requires y.requests == x.requests || (y.requests == x.requests + [r] && !r.Answered?)
    ensures SameAnswers(x, y) && (Shrinks(x, y) ==> Quiet(x, y))
  {
    forall s: Stamp ensures Count(y.requests, Answered(s)) == Count(x.requests, Answered(s)) { CountAppend(x.requests, r, Answered(s)); }
  }

  lemma FinishQuiet(x: Executor, e: ExecId, state: FinalState)
    requires e in x.execs
    ensures Quiet(x, Finish(x, e, state))
  {
    hide Quiet, Finish;
    var ex := x.execs[e];
    if ex.terminal {
      FinishEnded(x, e, state);
    } else {
      FinishEffect(x, e, state);
      assert x.requests + [] == x.requests;
    }
    AddedQuiet(x, Finish(x, e, state), if ex.pending.Some? then Discarded(ex.pending.value) else Taken(0));
  }

  lemma {:induction false} FinishAllQuiet(x: Executor, es: seq<ExecId>, state: FinalState)
    requires forall e | e in es :: e in x.execs
    ensures Quiet(x, FinishAll(x, es, state))
    decreases |es|
  {
    hide Finish;
    if es != [] {
      FinishAllQuiet(x, es[..|es| - 1], state);
      FinishQuiet(FinishAll(x, es[..|es| - 1], state), es[|es| - 1], state);
    }
  }

  lemma QuietTwice(x: Executor, y: Executor, z: Executor)
    requires Quiet(x, y) && Quiet(y, z)
    ensures Quiet(x, z)
  {
    hide Count;
    forall s: Stamp ensures Count(z.requests, Answered(s)) == Count(x.requests, Answered(s)) {
      assert Count(z.requests, Answered(s)) == Count(y.requests, Answered(s));
    }
  }

  lemma ShrinksTwice(x: Executor, y: Executor, z: Executor)
    requires Shrinks(x, y) && Shrinks(y, z)
    ensures Shrinks(x, z)
  {
  }

  /** One execution changes in what holds no request. */
  lemma TouchShrinks(x: Executor, e: ExecId, ex: Execution)
    requires e in x.execs && ex.pending == x.execs[e].pending
    ensures Shrinks(x, Update(x, e, ex)) && Update(x, e, ex).requests == x.requests
  {
  }

  lemma CloseOneQuiet(x: Executor, e: ExecId)
    requires e in x.execs
    ensures Quiet(x, CloseOne(x, e))
  {
    hide Finish, Quiet, Shrinks, Update;
    FinishQuiet(x, e, Canceled);
    TouchShrinks(x, e, x.execs[e]);
    TouchShrinks(x, e, x.execs[e].(cancelRequested := true));
    AddedQuiet(x, Update(x, e, x.execs[e].(cancelRequested := true)), Taken(0));
    AddedQuiet(x, x, Taken(0));
    SelfShrinks(x);
  }

  lemma SelfShrinks(x: Executor)
    ensures Shrinks(x, x)
  {
  }

  lemma {:induction false} CloseEachQuiet(x: Executor, es: seq<ExecId>)
    requires forall e | e in es :: e in x.execs
    ensures Quiet(x, CloseEach(x, es))
    decreases |es|
  {
    hide CloseOne, Quiet;
    if es == [] {
      SelfShrinks(x);
      AddedQuiet(x, x, Taken(0));
    } else {
      var y, e := CloseEach(x, es[..|es| - 1]), es[|es| - 1];
      CloseEachQuiet(x, es[..|es| - 1]);
      CloseOneQuiet(y, e);
      QuietTwice(x, y, CloseOne(y, e));
    }
  }

  lemma SetTurnQuiet(x: Executor, e: ExecId, turn: string)
    requires e in x.execs
    ensures SetTurn(x, e, turn).Some? ==> SetTurn(x, e, turn).value.requests == x.requests && Shrinks(x, SetTurn(x, e, turn).value)
    ensures PublishWorking(x, e).requests == x.requests && Shrinks(x, PublishWorking(x, e))
  {
    hide Shrinks;
    TouchShrinks(x, e, x.execs[e].(turnId := Some(turn)));
    TouchShrinks(x, e, x.execs[e].(workingPublished := true));
    SelfShrinks(x);
    SameExecsShrink(x, Update(x, e, x.execs[e].(turnId := Some(turn))));
    SameExecsShrink(x, Update(x, e, x.execs[e].(workingPublished := true)));
  }

  /** Whatever has the same executions shrinks as much. */
  lemma SameExecsShrink(x: Executor, y: Executor)
    requires Shrinks(x, y)
    ensures forall z: Executor | z.execs == y.execs :: Shrinks(x, z)
  {
  }

  /** Failing and removing an execution that differs only in what holds no request. */
  lemma FailQuiet(x: Executor, y: Executor, e: ExecId)
    requires e in y.execs && y.requests == x.requests && Shrinks(x, y)
    ensures Quiet(x, FailAndRemove(y, e)) && Quiet(x, Cleanup(y, e)) && Quiet(x, y)
  {
    hide Finish;
    FinishQuiet(y, e, Failed);
  }

  lemma ExecuteQuiet(x: Executor, taskId: string, key: string, messageId: string, contextId: string)
    ensures Quiet(x, Execute(x, taskId, key, messageId, contextId))
  {
    hide Quiet, FailAndRemove;
    AddedQuiet(x, x, Taken(0));
    var ex := Execution(taskId, key, contextId, Validating, false, None, None, None, false, false, false, false);
    FailQuiet(x, Publish(Entered(x, ex), x.next, InitialTask), x.next);
  }

  lemma ThreadQuiet(x: Executor, e: ExecId, thread: Option<string>)
    requires e in x.execs
    ensures Quiet(x, ThreadReady(x, e, thread))
  {
    hide Quiet, FailAndRemove, Cleanup;
    FailQuiet(x, x, e);
    var named := Update(x, e, x.execs[e].(threadId := thread));
    FailQuiet(x, named, e);
    AddedQuiet(x, Update(named, e, named.execs[e].(phase := Revalidating)).(byThread := x.byThread[if thread.Some? then thread.value else "" := e]), Taken(0));
  }

  lemma TurnQuiet(x: Executor, e: ExecId, turn: Option<string>)
    requires e in x.execs
    ensures Quiet(x, TurnSettled(x, e, turn))
  {
    hide Quiet, Shrinks, FailAndRemove, SetTurn, PublishWorking, Update;
    SelfShrinks(x);
    FailQuiet(x, x, e);
    if turn.Some? && SetTurn(x, e, turn.value).Some? {
      var y := SetTurn(x, e, turn.value).value;
      var z := PublishWorking(y, e);
      SetTurnQuiet(x, e, turn.value);
      SetTurnQuiet(y, e, turn.value);
      ShrinksTwice(x, y, z);
      TouchShrinks(z, e, z.execs[e].(phase := AwaitingEnd));
      ShrinksTwice(x, z, TurnSettled(x, e, turn));
      AddedQuiet(x, TurnSettled(x, e, turn), Taken(0));
    } else {
      var y := x.(closing := true);
      TouchShrinks(y, e, x.execs[e].(phase := Stopping));
      ClosingShrinks(x, Update(y, e, x.execs[e].(phase := Stopping)));
      AddedQuiet(x, Update(y, e, x.execs[e].(phase := Stopping)), Taken(0));
    }
  }

  lemma ClosingShrinks(x: Executor, z: Executor)
    requires Shrinks(x.(closing := true), z)
    ensures Shrinks(x, z)
  {
  }

  lemma NotifiedQuiet(x: Executor, e: ExecId, n: Notification)
    requires e in x.execs
    ensures Quiet(x, Notified(x, e, n))
  {
    hide Quiet, Finish, SetTurn, PublishWorking;
    AddedQuiet(x, x, Taken(0));
    match n
    case TurnStarted(turn) =>
      SetTurnQuiet(x, e, turn);
      if SetTurn(x, e, turn).Some? {
        SetTurnQuiet(SetTurn(x, e, turn).value, e, turn);
        AddedQuiet(x, Notified(x, e, n), Taken(0));
      }
    case ItemStarted => SetTurnQuiet(x, e, ""); AddedQuiet(x, Notified(x, e, n), Taken(0));
    case TurnEnded(ended, status) =>
      if ended.Some? { SetTurnQuiet(x, e, ended.value); }
      var outcome := if ended.None? then Some(x) else SetTurn(x, e, ended.value);
      if outcome.Some? {
        var y := outcome.value;
        SameThenFinish(x, y, e);
        AddedQuiet(x, y, Taken(0));
        AddedQuiet(x, Update(y, e, y.execs[e].(completionPending := true)), Taken(0));
      }
  }

  lemma SameThenFinish(x: Executor, y: Executor, e: ExecId)
    requires e in y.execs && y.requests == x.requests && Shrinks(x, y)
    ensures forall state: FinalState :: Quiet(x, Finish(y, e, state))
  {
    hide Finish;
    forall state: FinalState ensures Quiet(x, Finish(y, e, state)) { FinishQuiet(y, e, state); }
  }

  lemma RequestSameAnswers(x: Executor, turn: string, thread: string)
    ensures SameAnswers(x, Request(x, turn, thread))
  {
    hide SameAnswers, Finish;
    AddedQuiet(x, x, Taken(0));
    if turn in x.byTurn && x.byTurn[turn] in x.execs {
      var e := x.byTurn[turn];
      FinishQuiet(x, e, Failed);
      AddedQuiet(x, Publish(Asked(x, e), e, InputRequired), Taken(x.next));
    }
  }

  lemma CancelQuiet(x: Executor, taskId: string)
    ensures Quiet(x, Cancel(x, taskId))
  {
    hide Quiet, Finish;
    AddedQuiet(x, x, Taken(0));
    if taskId in x.executions && x.executions[taskId] in x.execs {
      var e := x.executions[taskId];
      var asked := Update(x, e, x.execs[e].(cancelRequested := true));
      AddedQuiet(x, asked, Taken(0));
      SameThenFinish(x, asked, e);
    }
  }

  lemma ValidatedQuiet(x: Executor, e: ExecId, ok: bool)
    requires e in x.execs
    ensures Quiet(x, Validated(x, e, ok)) && Quiet(x, Revalidated(x, e, ok))
  {
    hide Quiet, FailAndRemove, Cleanup;
    FailQuiet(x, x, e);
    AddedQuiet(x, Update(x, e, x.execs[e].(phase := CreatingThread)), Taken(0));
    AddedQuiet(x, Update(x, e, x.execs[e].(turnStarting := true, phase := StartingTurn)), Taken(0));
  }

  lemma SameRequestsQuiet(x: Executor, y: Executor, z: Executor)
    requires y.requests == x.requests && Shrinks(x, y) && Quiet(y, z)
    ensures Quiet(x, z)
  {
  }

  /** The step delivers an answer to the request `s`, which its execution still waits for. */
  predicate Answers(x: Executor, step: Step, s: Stamp) {
    step.ContinueCheckedStep? && step.ok && Enabled(x, step)
    && var c := x.continuing[step.op];
       c.pending == s && !x.execs[c.exec].terminal && x.execs[c.exec].pending == Some(s)
  }

  lemma CheckedAnswers(x: Executor, op: OpId, ok: bool, s: Stamp)
    requires op in x.continuing && x.continuing[op].exec in x.execs && !x.continuing[op].answering
    ensures Count(ContinueChecked(x, op, ok).requests, Answered(s))
         == Count(x.requests, Answered(s)) + (if Answers(x, ContinueCheckedStep(op, ok), s) then 1 else 0)
  {
    hide Count;
    CountAppend(x.requests, Answered(x.continuing[op].pending), Answered(s));
  }

  lemma OthersQuiet(x: Executor, step: Step)
    requires Enabled(x, step) && !step.ContinueCheckedStep? && !step.RequestStep?
    ensures Quiet(x, Perform(x, step))
  {
    hide Quiet, Execute, Validated, Revalidated, ThreadReady, TurnSettled, FailAndRemove, FinishAll, Finish, Cancel, CloseEach, Notified, Request, Cleanup;
    AddedQuiet(x, x, Taken(0));
    match step
    case ExecuteStep(taskId, key, messageId, contextId) => ExecuteQuiet(x, taskId, key, messageId, contextId);
    case ValidatedStep(e, ok) => ValidatedQuiet(x, e, ok);
    case ThreadStep(e, thread) => ThreadQuiet(x, e, thread);
    case RevalidatedStep(e, ok) => ValidatedQuiet(x, e, ok);
    case TurnStep(e, turn) => TurnQuiet(x, e, turn);
    case EndStep(e) => FailQuiet(x, x, e);
    case StopAllStep(order, closes) =>
      var y := x.(closing := x.closing || closes);
      FinishAllQuiet(y, order, Failed);
      SameRequestsQuiet(x, y, FinishAll(y, order, Failed));
    case FinishStep(e, state) => FinishQuiet(x, e, state);
    case CancelStep(taskId) => CancelQuiet(x, taskId);
    case CloseStep(order) =>
      var y := x.(closing := true);
      CloseEachQuiet(y, order);
      SameRequestsQuiet(x, y, CloseEach(y, order));
    case AnswerStep(op, ok) => AnswerQuiet(x, op);
    case NotifyStep(turn, thread, n) => NotifiedQuiet(x, FindExecution(x, turn, thread).value, n);
    case CompleteStep(e, ok) => FinishQuiet(x, e, if ok then Completed else Failed);
    case _ => AdmissionsQuiet(x, step);
  }

  lemma AnswerQuiet(x: Executor, op: OpId)
    requires op in x.continuing && x.continuing[op].exec in x.execs
    ensures var over := x.(continuing := x.continuing - {op});
            Quiet(x, over) && Quiet(x, Finish(over, x.continuing[op].exec, Failed))
  {
    hide Finish;
    var over := x.(continuing := x.continuing - {op});
    AddedQuiet(x, over, Taken(0));
    SameThenFinish(x, over, x.continuing[op].exec);
  }

  /** Admitting a message or an answer touches no execution. */
  lemma AdmissionsQuiet(x: Executor, step: Step)
    requires Enabled(x, step)
    requires step.AdmitStep? || step.ReleaseAdmissionStep? || step.AdmitContinuationStep? || step.ReleaseContinuationStep?
             || step.ContinueStep?
    ensures Quiet(x, Perform(x, step))
  {
    hide SameAnswers, Shrinks, Publish, Execute, Validated, Revalidated, ThreadReady, TurnSettled, FailAndRemove, StopAll, Finish, Cancel, Close,
         ContinueChecked, AnswerSettled, Notified, Complete, Request, FindExecution;
    SelfShrinks(x);
    SameExecsShrink(x, x);
    AddedQuiet(x, Perform(x, step), Taken(0));
  }

  /** In any state a request is answered, once, exactly when the answers were accepted and it is still the one that is pending. */
  lemma AnswersGoToThePending(x: Executor, step: Step, s: Stamp)
    ensures Count(Apply(x, step).requests, Answered(s)) == Count(x.requests, Answered(s)) + (if Answers(x, step, s) then 1 else 0)
  {
    hide Perform, Enabled;
    if Enabled(x, step) {
      if step.ContinueCheckedStep? { PerformChecked(x, step, s); }
      else if step.RequestStep? { PerformRequest(x, step); }
      else { OthersQuiet(x, step); }
    }
  }

  lemma PerformRequest(x: Executor, step: Step)
    requires step.RequestStep? && Enabled(x, step)
    ensures SameAnswers(x, Perform(x, step)) && Perform(x, step) == Request(x, step.turnName, step.threadName)
  {
    hide Request, SameAnswers;
    RequestSameAnswers(x, step.turnName, step.threadName);
  }

  lemma PerformChecked(x: Executor, step: Step, s: Stamp)
    requires step.ContinueCheckedStep? && Enabled(x, step)
    ensures Count(Perform(x, step).requests, Answered(s)) == Count(x.requests, Answered(s)) + (if Answers(x, step, s) then 1 else 0)
  {
    hide ContinueChecked;
    CheckedAnswers(x, step.op, step.ok, s);
  }

  /** The step makes a new reverse request of `e` its pending input, under the stamp `s`. */
  predicate Takes(x: Executor, step: Step, e: ExecId, s: Stamp) {
    step.RequestStep? && e in x.execs && x.execs[e].pending == None && s == x.next
    && e in Apply(x, step).execs && Apply(x, step).execs[e].pending == Some(s)
  }

  lemma RequestOrigin(x: Executor, turn: string, thread: string, e: ExecId, s: Stamp)
    requires e in Request(x, turn, thread).execs && Request(x, turn, thread).execs[e].pending == Some(s)
    ensures e in x.execs && (x.execs[e].pending == Some(s) || (x.execs[e].pending == None && s == x.next))
  {
    hide Request, Finish, Asked, SameAnswers;
    if turn in x.byTurn && x.byTurn[turn] in x.execs {
      FinishQuiet(x, x.byTurn[turn], Failed);
      if x.execs[x.byTurn[turn]].pending == None { AskedOrigin(x, x.byTurn[turn], e, s); }
    }
    RequestIs(x, turn, thread);
  }

  lemma RequestIs(x: Executor, turn: string, thread: string)
    ensures var y := Request(x, turn, thread);
            y == x || (turn in x.byTurn && x.byTurn[turn] in x.execs
                       && (y == Finish(x, x.byTurn[turn], Failed)
                           || (x.execs[x.byTurn[turn]].pending == None && y == Publish(Asked(x, x.byTurn[turn]), x.byTurn[turn], InputRequired))))
  {
    hide Finish;
  }

  lemma AskedOrigin(x: Executor, f: ExecId, e: ExecId, s: Stamp)
    requires f in x.execs && x.execs[f].pending == None
    ensures var y := Publish(Asked(x, f), f, InputRequired);
            y.execs.Keys == x.execs.Keys
            && (e in x.execs && y.execs[e].pending == Some(s) ==> x.execs[e].pending == Some(s) || (x.execs[e].pending == None && s == x.next))
  {
  }

  lemma CheckedShrinks(x: Executor, op: OpId, ok: bool)
    requires op in x.continuing && x.continuing[op].exec in x.execs
    ensures Shrinks(x, ContinueChecked(x, op, ok))
  {
  }

  lemma StepOrigin(x: Executor, step: Step, e: ExecId, s: Stamp)
    requires e in Apply(x, step).execs && Apply(x, step).execs[e].pending == Some(s)
    ensures (e in x.execs && x.execs[e].pending == Some(s)) || Takes(x, step, e, s)
  {
    hide Request, ContinueChecked, Execute, Validated, Revalidated, ThreadReady, TurnSettled, FailAndRemove, FinishAll, Finish, Cancel, CloseEach, Notified;
    if Enabled(x, step) {
      if step.RequestStep? { RequestOrigin(x, step.turnName, step.threadName, e, s); }
      else if step.ContinueCheckedStep? { CheckedShrinks(x, step.op, step.ok); }
      else { OthersQuiet(x, step); }
    }
  }

  /** What an execution holds as pending input, the execution itself took from a reverse request. */
  lemma {:induction false} PendingWasTaken(steps: seq<Step>, e: ExecId, s: Stamp) returns (n: nat)
    requires e in Run(steps).execs && Run(steps).execs[e].pending == Some(s)
    ensures n < |steps| && Takes(Run(steps[..n]), steps[n], e, s)
  {
    hide Apply, Takes;
    n := |steps| - 1;
    StepOrigin(Run(steps[..n]), steps[n], e, s);
    if !Takes(Run(steps[..n]), steps[n], e, s) {
      var k := PendingWasTaken(steps[..n], e, s);
      assert steps[..n][..k] == steps[..k];
      n := k;
    }
  }

  /**
   In every run, a request that is answered was taken earlier by the same execution, and had been
   neither answered nor discarded; afterwards it is settled and no execution holds it.
   */
  lemma AnsweredWasTaken(steps: seq<Step>, step: Step, s: Stamp) returns (n: nat)
    requires Answers(Run(steps), step, s)
    ensures n < |steps| && Takes(Run(steps[..n]), steps[n], Run(steps).continuing[step.op].exec, s)
    ensures Count(Run(steps).requests, Taken(s)) == 1 && Settled(Run(steps).requests, s) == 0
    ensures var y := Apply(Run(steps), step);
            Count(y.requests, Answered(s)) == 1 && Settled(y.requests, s) == 1 && !IsPending(y, s)
  {
    hide Run, Apply, Takes;
    var x := Run(steps);
    var e := x.continuing[step.op].exec;
    n := PendingWasTaken(steps, e, s);
    assert IsPending(x, s);
    RequestsSettleOnce(steps, s);
    RequestsSettleOnce(steps + [step], s);
    RunMore(steps, step);
    AnswersGoToThePending(x, step, s);
  }

  lemma RunMore(steps: seq<Step>, step: Step)
    ensures Run(steps + [step]) == Apply(Run(steps), step)
  {
    hide Apply;
    assert (steps + [step])[..|steps|] == steps;
  }
}
