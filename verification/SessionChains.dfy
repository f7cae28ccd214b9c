/**
 The per-session chains of the channel runtime and of the turn scheduler: each new operation waits
 for the last tail of its session, and the map of tails forgets a tail that is still the last one
 when it settled. A forward's tail also settles when it is aborted, before its handler ended.

 Promise reactions run one at a time, so each is one step here.
 */
module SessionChains {
  import opened Common

  type JobId = nat

  datatype Phase = Queued | Running | Ended(ran: bool)

  datatype Job = Job(session: string, after: Option<JobId>, phase: Phase, aborted: bool, settled: bool)

  datatype LogEvent = Started(job: JobId) | Finished(job: JobId)

  /** `early` is true for forwards: their tails settle on abort. */
  datatype Chains = Chains(early: bool, jobs: seq<Job>, tails: map<string, JobId>, closed: bool, log: seq<LogEvent>)

  datatype Step =
    | SubmitStep(session: string)
    | BeginStep(job: JobId, skip: bool)
    | FinishStep(job: JobId)
    | SettleStep(job: JobId)
    | ForgetStep(job: JobId)
    | CloseStep(abortsAll: bool)

  predicate Has(c: Chains, j: JobId) {
    j < |c.jobs|
  }

  function With(c: Chains, j: JobId, job: Job): Chains
    requires Has(c, j)
  {
    c.(jobs := c.jobs[j := job])
  }

  function TailOf(c: Chains, session: string): Option<JobId> {
    if session in c.tails then Some(c.tails[session]) else None
  }

  /** Nothing is submitted once closed. */
  function Submit(c: Chains, session: string): Chains {
    if c.closed then c
    else c.(jobs := c.jobs + [Job(session, TailOf(c, session), Queued, false, false)], tails := c.tails[session := |c.jobs|])
  }

  predicate MayBegin(c: Chains, j: JobId) {
    Has(c, j) && c.jobs[j].phase == Queued
    && (c.jobs[j].after.Some? ==> Has(c, c.jobs[j].after.value) && c.jobs[c.jobs[j].after.value].settled)
  }

  /** `skip` is a route that is no longer allowed, or an aborted turn. */
  function Begin(c: Chains, j: JobId, skip: bool): Chains
    requires Has(c, j)
  {
    if c.closed || skip then With(c, j, c.jobs[j].(phase := Ended(false)))
    else With(c, j, c.jobs[j].(phase := Running)).(log := c.log + [Started(j)])
  }

  function Finish(c: Chains, j: JobId): Chains
    requires Has(c, j)
  {
    With(c, j, c.jobs[j].(phase := Ended(true))).(log := c.log + [Finished(j)])
  }

  predicate MaySettle(c: Chains, j: JobId) {
    Has(c, j) && !c.jobs[j].settled && (c.jobs[j].phase.Ended? || (c.early && c.jobs[j].aborted))
  }

  function Settle(c: Chains, j: JobId): Chains
    requires Has(c, j)
  {
    With(c, j, c.jobs[j].(settled := true))
  }

  function Forget(c: Chains, j: JobId): Chains
    requires Has(c, j)
  {
    var session := c.jobs[j].session;
    if session in c.tails && c.tails[session] == j then c.(tails := c.tails - {session}) else c
  }

  function Aborted(job: Job): Job {
    if job.settled then job else job.(aborted := true)
  }

  /** Closing aborts what is still active; a start that failed closes without aborting. */
  function Close(c: Chains, abortsAll: bool): Chains {
    if abortsAll then c.(closed := true, jobs := seq(|c.jobs|, i requires 0 <= i < |c.jobs| => Aborted(c.jobs[i])))
    else c.(closed := true)
  }

  function Apply(c: Chains, step: Step): Chains {
    match step
    case SubmitStep(session) => Submit(c, session)
    case BeginStep(j, skip) => if MayBegin(c, j) then Begin(c, j, skip) else c
    case FinishStep(j) => if Has(c, j) && c.jobs[j].phase == Running then Finish(c, j) else c
    case SettleStep(j) => if MaySettle(c, j) then Settle(c, j) else c
    case ForgetStep(j) => if Has(c, j) && c.jobs[j].settled then Forget(c, j) else c
    case CloseStep(abortsAll) => Close(c, abortsAll)
  }

  function Run(early: bool, steps: seq<Step>): Chains {
    if steps == [] then Chains(early, [], map[], false, []) else Apply(Run(early, steps[..|steps| - 1]), steps[|steps| - 1])
  }

  // ---------------------------------------------------------------- the invariant

  predicate Over(c: Chains, j: JobId) {
    Has(c, j) && c.jobs[j].phase.Ended?
  }

  predicate Ran(c: Chains, j: JobId) {
    Has(c, j) && (c.jobs[j].phase == Running || c.jobs[j].phase == Ended(true))
  }

  ghost predicate EarlierOver(c: Chains, j: JobId) {
    Has(c, j) && forall m | 0 <= m < j && c.jobs[m].session == c.jobs[j].session :: Over(c, m)
  }

  /** A job waits for the last job of its session before it, or every earlier one is over. */
  ghost predicate Linked(c: Chains, j: JobId) {
    Has(c, j) &&
    match c.jobs[j].after
    case Some(p) => p < j && c.jobs[p].session == c.jobs[j].session
      && forall m | p < m < j :: c.jobs[m].session != c.jobs[j].session
    case None => EarlierOver(c, j)
  }

  ghost predicate TailsLast(c: Chains) {
    && (forall s | s in c.tails :: Has(c, c.tails[s]) && c.jobs[c.tails[s]].session == s
          && forall m | c.tails[s] < m < |c.jobs| :: c.jobs[m].session != s)
    && (!c.closed ==> forall m | 0 <= m < |c.jobs| && c.jobs[m].session !in c.tails :: Over(c, m))
  }

  ghost predicate Ordered(c: Chains) {
    && (forall j | 0 <= j < |c.jobs| :: Linked(c, j))
    && (forall j | 0 <= j < |c.jobs| && Ran(c, j) :: EarlierOver(c, j))
    && (!c.closed ==> forall j | 0 <= j < |c.jobs| && Over(c, j) :: EarlierOver(c, j))
    && (!c.closed ==> forall j | 0 <= j < |c.jobs| :: !c.jobs[j].aborted && (c.jobs[j].settled ==> Over(c, j)))
    && (forall j | 0 <= j < |c.jobs| && c.jobs[j].settled :: Over(c, j) || c.early)
  }

  ghost predicate FinishedAfter(c: Chains, j: JobId, p: nat, q: nat) {
    exists r :: p < r < q && r < |c.log| && c.log[r] == Finished(j)
  }

  ghost predicate Logged(c: Chains) {
    && (forall p | 0 <= p < |c.log| && c.log[p].Started? ::
          Ran(c, c.log[p].job) && (Over(c, c.log[p].job) ==> FinishedAfter(c, c.log[p].job, p, |c.log|)))
    && (forall p, q | 0 <= p < q < |c.log| && c.log[p].Started? && c.log[q].Started?
          && SameSession(c, c.log[p].job, c.log[q].job) ::
          c.log[p].job < c.log[q].job && FinishedAfter(c, c.log[p].job, p, q))
  }

  predicate SameSession(c: Chains, a: JobId, b: JobId) {
    Has(c, a) && Has(c, b) && c.jobs[a].session == c.jobs[b].session
  }

  ghost predicate Inv(c: Chains) {
    TailsLast(c) && Ordered(c) && Logged(c)
  }

  lemma SubmitKeeps(c: Chains, session: string)
    requires Inv(c)
    ensures Inv(Submit(c, session))
  {
    hide TailsLast, Ordered, Logged;
    if !c.closed {
      SubmitTails(c, session);
      SubmitOrdered(c, session);
      SubmitLogged(c, session);
    }
  }

  lemma SubmitTails(c: Chains, session: string)
    requires TailsLast(c) && !c.closed
    ensures TailsLast(Submit(c, session))
  {
    var d := Submit(c, session);
    forall m | 0 <= m < |d.jobs| && d.jobs[m].session !in d.tails ensures Over(d, m) { assert Over(c, m); }
  }

  lemma SubmitOrdered(c: Chains, session: string)
    requires TailsLast(c) && Ordered(c) && !c.closed
    ensures Ordered(Submit(c, session))
  {
    var d := Submit(c, session);
    var n := |c.jobs|;
    assert forall j | 0 <= j < n :: d.jobs[j] == c.jobs[j];
    forall j | 0 <= j < n && EarlierOver(c, j) ensures EarlierOver(d, j) { }
    assert Linked(d, n) by {
      if d.jobs[n].after.None? {
        forall m | 0 <= m < n && c.jobs[m].session == session ensures Over(d, m) { assert Over(c, m); }
      }
    }
    forall j | 0 <= j < |d.jobs| ensures Linked(d, j) { if j < n { assert Linked(c, j); } }
  }

  /** The log stays what it is while no job that it mentions ends. */
  lemma SameLog(c: Chains, d: Chains)
    requires Logged(c) && d.log == c.log && |c.jobs| <= |d.jobs|
    requires forall j | 0 <= j < |c.jobs| :: d.jobs[j].session == c.jobs[j].session
    requires forall j | 0 <= j < |c.jobs| && Ran(c, j) :: d.jobs[j].phase == c.jobs[j].phase
    ensures Logged(d)
  {
    forall p | 0 <= p < |c.log| && c.log[p].Started?
      ensures Ran(d, c.log[p].job) && (Over(d, c.log[p].job) ==> FinishedAfter(d, c.log[p].job, p, |d.log|))
    {
      assert Ran(c, c.log[p].job);
      if Over(c, c.log[p].job) { Found(c, d, c.log[p].job, p, |c.log|, |d.log|); }
    }
    forall p, q | 0 <= p < q < |d.log| && d.log[p].Started? && d.log[q].Started? && SameSession(d, d.log[p].job, d.log[q].job)
      ensures d.log[p].job < d.log[q].job && FinishedAfter(d, d.log[p].job, p, q)
    {
      assert Ran(c, c.log[p].job) && Ran(c, c.log[q].job);
      assert SameSession(c, c.log[p].job, c.log[q].job);
      Found(c, d, c.log[p].job, p, q, q);
    }
  }

  lemma Found(c: Chains, d: Chains, j: JobId, p: nat, q: nat, q': nat)
    requires FinishedAfter(c, j, p, q) && c.log <= d.log && q <= q' && q <= |c.log|
    ensures FinishedAfter(d, j, p, q')
  {
    var r :| p < r < q && r < |c.log| && c.log[r] == Finished(j);
    assert d.log[r] == Finished(j);
  }

  lemma SubmitLogged(c: Chains, session: string)
    requires Logged(c) && !c.closed
    ensures Logged(Submit(c, session))
  {
    SameLog(c, Submit(c, session));
  }

  /** One job changes its phase or its tail, and nothing that is over begins again. */
  ghost predicate Advances(c: Chains, d: Chains) {
    && |d.jobs| == |c.jobs| && d.tails == c.tails && (c.closed ==> d.closed) && d.early == c.early
    && forall j | 0 <= j < |c.jobs| ::
         d.jobs[j].session == c.jobs[j].session && d.jobs[j].after == c.jobs[j].after && (Over(c, j) ==> Over(d, j))
  }

  lemma StillOver(c: Chains, d: Chains, j: JobId)
    requires Advances(c, d) && EarlierOver(c, j)
    ensures EarlierOver(d, j)
  {
    forall m | 0 <= m < j && d.jobs[m].session == d.jobs[j].session ensures Over(d, m) { assert Over(c, m); }
  }

  lemma AdvanceTails(c: Chains, d: Chains)
    requires TailsLast(c) && Advances(c, d)
    ensures TailsLast(d)
  { }

  lemma AdvanceLinked(c: Chains, d: Chains)
    requires Ordered(c) && Advances(c, d)
    ensures forall j | 0 <= j < |d.jobs| :: Linked(d, j)
  {
    forall j | 0 <= j < |d.jobs| ensures Linked(d, j) {
      assert Linked(c, j);
      if c.jobs[j].after.None? { StillOver(c, d, j); }
    }
  }

  /** While open, a job that may begin has only jobs before it that are over. */
  lemma BeginsInOrder(c: Chains, j: JobId)
    requires Ordered(c) && MayBegin(c, j) && !c.closed
    ensures EarlierOver(c, j)
  {
    assert Linked(c, j);
    if c.jobs[j].after.Some? {
      var p := c.jobs[j].after.value;
      assert Over(c, p) && EarlierOver(c, p);
      forall m | 0 <= m < j && c.jobs[m].session == c.jobs[j].session ensures Over(c, m) {
        assert !(p < m < j);
      }
    }
  }

  lemma BeginOrdered(c: Chains, j: JobId, skip: bool)
    requires Ordered(c) && MayBegin(c, j)
    ensures Ordered(Begin(c, j, skip))
  {
    hide Linked, EarlierOver;
    var d := Begin(c, j, skip);
    assert Advances(c, d);
    AdvanceLinked(c, d);
    if !c.closed {
      BeginsInOrder(c, j);
      StillOver(c, d, j);
    }
    forall k | 0 <= k < |d.jobs| && EarlierOver(c, k) ensures EarlierOver(d, k) { StillOver(c, d, k); }
    forall k | 0 <= k < |d.jobs| && Ran(d, k) ensures EarlierOver(d, k) { assert k == j || Ran(c, k); }
    if !c.closed {
      forall k | 0 <= k < |d.jobs| && Over(d, k) ensures EarlierOver(d, k) { assert k == j || Over(c, k); }
    }
  }

  lemma BeginLogged(c: Chains, j: JobId)
    requires Ordered(c) && Logged(c) && MayBegin(c, j) && !c.closed
    ensures Logged(Begin(c, j, false))
  {
    hide Linked, Ordered;
    var d := Begin(c, j, false);
    var n := |c.log|;
    BeginsInOrder(c, j);
    forall p | 0 <= p < |d.log| && d.log[p].Started?
      ensures Ran(d, d.log[p].job) && (Over(d, d.log[p].job) ==> FinishedAfter(d, d.log[p].job, p, |d.log|))
    {
      if p < n {
        assert Ran(c, c.log[p].job);
        if Over(d, d.log[p].job) { Found(c, d, c.log[p].job, p, n, n + 1); }
      }
    }
    forall p, q | 0 <= p < q < |d.log| && d.log[p].Started? && d.log[q].Started? && SameSession(d, d.log[p].job, d.log[q].job)
      ensures d.log[p].job < d.log[q].job && FinishedAfter(d, d.log[p].job, p, q)
    {
      assert Ran(c, c.log[p].job);
      if q < n {
        assert Ran(c, c.log[q].job) && SameSession(c, c.log[p].job, c.log[q].job);
        Found(c, d, c.log[p].job, p, q, q);
      } else {
        NotBefore(c, c.log[p].job, j);
        Found(c, d, c.log[p].job, p, n, n);
      }
    }
  }

  /** A job of the session that ran came before one that is still queued, and is over. */
  lemma NotBefore(c: Chains, a: JobId, j: JobId)
    requires Ordered(c) && Ran(c, a) && Has(c, j) && c.jobs[j].phase == Queued && EarlierOver(c, j)
    requires c.jobs[a].session == c.jobs[j].session
    ensures a < j && Over(c, a)
  {
    assert EarlierOver(c, a);
    assert a != j;
    assert j < a ==> Over(c, j);
  }

  lemma BeginKeeps(c: Chains, j: JobId, skip: bool)
    requires Inv(c) && MayBegin(c, j)
    ensures Inv(Begin(c, j, skip))
  {
    hide TailsLast, Ordered, Logged;
    var d := Begin(c, j, skip);
    assert Advances(c, d);
    AdvanceTails(c, d);
    BeginOrdered(c, j, skip);
    if c.closed || skip { SameLog(c, d); } else { BeginLogged(c, j); }
  }

  lemma FinishOrdered(c: Chains, j: JobId)
    requires Ordered(c) && Has(c, j) && c.jobs[j].phase == Running
    ensures Ordered(Finish(c, j))
  {
    hide Linked, EarlierOver;
    var d := Finish(c, j);
    assert Advances(c, d);
    AdvanceLinked(c, d);
    forall k | 0 <= k < |d.jobs| && EarlierOver(c, k) ensures EarlierOver(d, k) { StillOver(c, d, k); }
    forall k | 0 <= k < |d.jobs| && Ran(d, k) ensures EarlierOver(d, k) { assert Ran(c, k); }
    if !c.closed {
      forall k | 0 <= k < |d.jobs| && Over(d, k) ensures EarlierOver(d, k) { assert k == j || Over(c, k); }
    }
  }

  lemma FinishLogged(c: Chains, j: JobId)
    requires Logged(c) && Has(c, j) && c.jobs[j].phase == Running
    ensures Logged(Finish(c, j))
  {
    var d := Finish(c, j);
    var n := |c.log|;
    assert d.log[n] == Finished(j);
    forall p | 0 <= p < |d.log| && d.log[p].Started?
      ensures Ran(d, d.log[p].job) && (Over(d, d.log[p].job) ==> FinishedAfter(d, d.log[p].job, p, |d.log|))
    {
      assert Ran(c, c.log[p].job);
      if Over(c, c.log[p].job) { Found(c, d, c.log[p].job, p, n, n + 1); }
    }
    forall p, q | 0 <= p < q < |d.log| && d.log[p].Started? && d.log[q].Started? && SameSession(d, d.log[p].job, d.log[q].job)
      ensures d.log[p].job < d.log[q].job && FinishedAfter(d, d.log[p].job, p, q)
    {
      assert SameSession(c, c.log[p].job, c.log[q].job);
      Found(c, d, c.log[p].job, p, q, q);
    }
  }

  lemma FinishKeeps(c: Chains, j: JobId)
    requires Inv(c) && Has(c, j) && c.jobs[j].phase == Running
    ensures Inv(Finish(c, j))
  {
    hide TailsLast, Ordered, Logged;
    assert Advances(c, Finish(c, j));
    AdvanceTails(c, Finish(c, j));
    FinishOrdered(c, j);
    FinishLogged(c, j);
  }

  /** Tails settle, jobs are aborted or the runtime closes; no phase changes. */
  lemma QuietKeeps(c: Chains, d: Chains)
    requires Inv(c) && Advances(c, d) && d.log == c.log
    requires forall j | 0 <= j < |c.jobs| :: d.jobs[j].phase == c.jobs[j].phase
    requires !d.closed ==> forall j | 0 <= j < |c.jobs| :: !d.jobs[j].aborted && (d.jobs[j].settled ==> Over(d, j))
    requires forall j | 0 <= j < |c.jobs| && d.jobs[j].settled :: Over(d, j) || d.early
    ensures Inv(d)
  {
    AdvanceTails(c, d);
    SameLog(c, d);
    AdvanceLinked(c, d);
    QuietOrdered(c, d);
  }

  lemma QuietOrdered(c: Chains, d: Chains)
    requires Ordered(c) && Advances(c, d)
    requires forall j | 0 <= j < |c.jobs| :: d.jobs[j].phase == c.jobs[j].phase
    requires !d.closed ==> forall j | 0 <= j < |c.jobs| :: !d.jobs[j].aborted && (d.jobs[j].settled ==> Over(d, j))
    requires forall j | 0 <= j < |c.jobs| && d.jobs[j].settled :: Over(d, j) || d.early
    ensures Ordered(d)
  {
    hide Linked, EarlierOver;
    AdvanceLinked(c, d);
    forall k | 0 <= k < |d.jobs| && EarlierOver(c, k) ensures EarlierOver(d, k) { StillOver(c, d, k); }
    forall k | 0 <= k < |d.jobs| && Ran(d, k) ensures EarlierOver(d, k) { assert Ran(c, k); }
    if !d.closed {
      forall k | 0 <= k < |d.jobs| && Over(d, k) ensures EarlierOver(d, k) { assert Over(c, k); }
    }
  }

  /** Forgetting the tail that settled while it was still the last one breaks no chain. */
  lemma ForgetKeeps(c: Chains, j: JobId)
    requires Inv(c) && Has(c, j) && c.jobs[j].settled
    ensures Inv(Forget(c, j))
  {
    hide Linked, Logged;
    var d := Forget(c, j);
    if d != c {
      assert SameChains(c, d);
      ForgetTails(c, j);
      QuietForget(c, d);
    }
  }

  predicate SameChains(c: Chains, d: Chains) {
    d == c.(tails := d.tails)
  }

  lemma QuietForget(c: Chains, d: Chains)
    requires Ordered(c) && Logged(c) && SameChains(c, d)
    ensures Ordered(d) && Logged(d)
  {
    hide TailsLast, Linked;
    SameLog(c, d);
    forall k | 0 <= k < |d.jobs| && EarlierOver(c, k) ensures EarlierOver(d, k) { }
    forall k | 0 <= k < |d.jobs| ensures Linked(d, k) { assert Linked(c, k); LinkedStays(c, d, k); }
    forall k | 0 <= k < |d.jobs| && Ran(d, k) ensures EarlierOver(d, k) { assert Ran(c, k); }
    if !d.closed {
      forall k | 0 <= k < |d.jobs| && Over(d, k) ensures EarlierOver(d, k) { assert Over(c, k); }
    }
  }

  lemma LinkedStays(c: Chains, d: Chains, j: JobId)
    requires Linked(c, j) && SameChains(c, d)
    ensures Linked(d, j)
  {
    if c.jobs[j].after.None? {
      forall m | 0 <= m < j && d.jobs[m].session == d.jobs[j].session ensures Over(d, m) { assert Over(c, m); }
    }
  }

  lemma ForgetTails(c: Chains, j: JobId)
    requires TailsLast(c) && Ordered(c) && Has(c, j) && c.jobs[j].settled
    ensures TailsLast(Forget(c, j))
  {
    var d := Forget(c, j);
    var s := c.jobs[j].session;
    if !c.closed {
      forall m | 0 <= m < |d.jobs| && d.jobs[m].session !in d.tails ensures Over(d, m) {
        if d.jobs[m].session in c.tails {
          assert c.tails[s] == j && d.jobs[m].session == s;
          assert Over(c, j) && EarlierOver(c, j);
          assert m <= j;
        } else {
          assert Over(c, m);
        }
      }
    }
  }

  lemma SettleKeeps(c: Chains, j: JobId)
    requires Inv(c) && MaySettle(c, j)
    ensures Inv(Settle(c, j))
  {
    hide TailsLast, Linked, EarlierOver, Logged;
    var d := Settle(c, j);
    assert Inv(c);
    QuietKeeps(c, d);
  }

  lemma CloseKeeps(c: Chains, abortsAll: bool)
    requires Inv(c)
    ensures Inv(Close(c, abortsAll))
  {
    hide Linked, EarlierOver, Logged, TailsLast;
    QuietKeeps(c, Close(c, abortsAll));
  }

  lemma ApplyKeeps(c: Chains, step: Step)
    requires Inv(c)
    ensures Inv(Apply(c, step))
  {
    hide Inv, Submit, Begin, Finish, Settle, Forget, Close, MayBegin, MaySettle;
    match step
    case SubmitStep(session) => SubmitKeeps(c, session);
    case BeginStep(j, skip) => if MayBegin(c, j) { BeginKeeps(c, j, skip); }
    case FinishStep(j) => if Has(c, j) && c.jobs[j].phase == Running { FinishKeeps(c, j); }
    case SettleStep(j) => if MaySettle(c, j) { SettleKeeps(c, j); }
    case ForgetStep(j) => if Has(c, j) && c.jobs[j].settled { ForgetKeeps(c, j); }
    case CloseStep(abortsAll) => CloseKeeps(c, abortsAll);
  }

  lemma {:induction false} RunKeeps(early: bool, steps: seq<Step>)
    ensures Inv(Run(early, steps)) && Run(early, steps).early == early
  {
    if steps != [] {
      hide Inv, Apply;
      RunKeeps(early, steps[..|steps| - 1]);
      ApplyKeeps(Run(early, steps[..|steps| - 1]), steps[|steps| - 1]);
    }
  }

  // ---------------------------------------------------------------- the claims

  /**
   Of two handlers of one session, the one submitted first starts first and has finished before the
   other starts. Nothing starts twice.
   */
  lemma InOrderWithoutOverlap(early: bool, steps: seq<Step>, p: nat, q: nat)
    requires p < q < |Run(early, steps).log| && Run(early, steps).log[p].Started? && Run(early, steps).log[q].Started?
    requires SameSession(Run(early, steps), Run(early, steps).log[p].job, Run(early, steps).log[q].job)
    ensures Run(early, steps).log[p].job < Run(early, steps).log[q].job
    ensures FinishedAfter(Run(early, steps), Run(early, steps).log[p].job, p, q)
  {
    RunKeeps(early, steps);
  }

  /** Only a forward's tail settles before its handler ended, and only once the runtime is closed. */
  lemma EarlyTailsAreClosed(early: bool, steps: seq<Step>, j: JobId)
    requires Has(Run(early, steps), j) && Run(early, steps).jobs[j].settled && !Over(Run(early, steps), j)
    ensures early && Run(early, steps).closed
  {
    RunKeeps(early, steps);
  }

  predicate CanMove(c: Chains, j: JobId) {
    Has(c, j) && (MayBegin(c, j) || c.jobs[j].phase == Running || MaySettle(c, j))
  }

  /** A job whose tail has not settled waits for one that runs, or that can begin or settle now. */
  lemma {:induction false} NeverStuck(early: bool, steps: seq<Step>, j: JobId) returns (k: JobId)
    requires Has(Run(early, steps), j) && !Run(early, steps).jobs[j].settled
    ensures k <= j && CanMove(Run(early, steps), k) && Run(early, steps).jobs[k].session == Run(early, steps).jobs[j].session
  {
    var c := Run(early, steps);
    RunKeeps(early, steps);
    assert Linked(c, j);
    k := j;
    if !CanMove(c, j) {
      k := NeverStuck(early, steps, c.jobs[j].after.value);
    }
  }
}
