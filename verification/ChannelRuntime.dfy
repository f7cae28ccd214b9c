/**
 The state a channel runtime changes in place: its access policies, replaced all together or not at
 all, and the chains of its sessions, as objects whose methods are the steps of `SessionChains`.
 */
module ChannelRuntime {
  import opened Common
  import opened SessionChains

  datatype Mode = Allowlist | Denylist

  datatype AccessList = AccessList(mode: Mode, ids: seq<string>)

  datatype Policy = Policy(groups: AccessList, directs: AccessList)

  predicate ValidList(list: AccessList) {
    && (forall i | 0 <= i < |list.ids| :: !Blank(list.ids[i]))
    && (forall i, j | 0 <= i < j < |list.ids| :: list.ids[i] != list.ids[j])
  }

  predicate ValidPolicy(policy: Policy) {
    ValidList(policy.groups) && ValidList(policy.directs)
  }

  /** Checks a list as the source does: in one pass, keeping the ids seen so far. */
  method CheckList(list: AccessList) returns (ok: bool)
    ensures ok <==> ValidList(list)
  {
    var seen: set<string> := {};
    for i := 0 to |list.ids|
      invariant seen == set j | 0 <= j < i :: list.ids[j]
      invariant forall j | 0 <= j < i :: !Blank(list.ids[j])
      invariant forall j, k | 0 <= j < k < i :: list.ids[j] != list.ids[k]
    {
      if Blank(list.ids[i]) { return false; }
      if list.ids[i] in seen {
        var j :| 0 <= j < i && list.ids[j] == list.ids[i];
        return false;
      }
      seen := seen + {list.ids[i]};
    }
    return true;
  }

  class AccessPolicies {
    var policies: map<string, Policy>

    predicate Valid()
      reads this
    {
      forall c | c in policies :: ValidPolicy(policies[c])
    }

    /** All replacements are checked before the first one takes effect; a refusal changes nothing. */
    method ReplaceAccessPolicies(order: seq<string>, replacements: map<string, Policy>) returns (ok: bool)
      requires Valid() && forall c :: c in order <==> c in replacements
      modifies this
      ensures Valid()
      ensures ok <==> forall c | c in replacements :: c in old(policies) && ValidPolicy(replacements[c])
      ensures policies == if ok then old(policies) + replacements else old(policies)
    {
      for i := 0 to |order|
        invariant policies == old(policies)
        invariant forall j | 0 <= j < i :: order[j] in policies && ValidPolicy(replacements[order[j]])
      {
        assert order[i] in replacements;
        if order[i] !in policies { return false; }
        var groups := CheckList(replacements[order[i]].groups);
        var directs := CheckList(replacements[order[i]].directs);
        if !groups || !directs { return false; }
      }
      forall c | c in replacements ensures c in old(policies) && ValidPolicy(replacements[c]) {
        assert c in order;
        var j :| 0 <= j < |order| && order[j] == c;
        assert ValidPolicy(replacements[order[j]]);
      }
      for i := 0 to |order|
        invariant policies.Keys == old(policies).Keys
        invariant forall c | c in policies :: policies[c] == if c in order[..i] then replacements[c] else old(policies)[c]
      {
        assert order[..i + 1] == order[..i] + [order[i]];
        policies := policies[order[i] := replacements[order[i]]];
      }
      assert order[..|order|] == order;
      ok := true;
    }
  }

  /** When a reaction of a chain runs is the caller's choice here, as it is the event loop's in the source. */
  class SessionTails {
    const early: bool
    var jobs: seq<Job>
    var tails: map<string, JobId>
    var closed: bool
    var log: seq<LogEvent>

    ghost function State(): Chains
      reads this
    {
      Chains(early, jobs, tails, closed, log)
    }

    constructor (early: bool)
      ensures State() == Run(early, [])
    {
      this.early, jobs, tails, closed, log := early, [], map[], false, [];
    }

    /** Chains a new operation behind the last tail of its session; none once closed. */
    method Schedule(session: string) returns (job: Option<JobId>)
      modifies this
      ensures State() == Submit(old(State()), session)
      ensures job == if old(closed) then None else Some(old(|jobs|))
    {
      if closed { return None; }
      var after: Option<JobId> := None;
      if session in tails { after := Some(tails[session]); }
      job := Some(|jobs|);
      tails := tails[session := |jobs|];
      jobs := jobs + [Job(session, after, Queued, false, false)];
    }

    /** The reaction to the previous tail; answers whether the handler was started. */
    method StartHandler(j: JobId, skip: bool) returns (started: bool)
      requires MayBegin(State(), j)
      modifies this
      ensures State() == Begin(old(State()), j, skip)
      ensures started <==> !old(closed) && !skip
    {
      if closed || skip {
        jobs := jobs[j := jobs[j].(phase := Ended(false))];
        return false;
      }
      jobs := jobs[j := jobs[j].(phase := Running)];
      log := log + [Started(j)];
      started := true;
    }

    method EndHandler(j: JobId)
      requires Has(State(), j) && jobs[j].phase == Running
      modifies this
      ensures State() == Finish(old(State()), j)
    {
      jobs := jobs[j := jobs[j].(phase := Ended(true))];
      log := log + [Finished(j)];
    }

    method SettleTail(j: JobId)
      requires MaySettle(State(), j)
      modifies this
      ensures State() == Settle(old(State()), j)
    {
      jobs := jobs[j := jobs[j].(settled := true)];
    }

    /** The reaction to its own tail: the entry goes only while it is still this job's. */
    method ForgetTail(j: JobId)
      requires Has(State(), j) && jobs[j].settled
      modifies this
      ensures State() == Forget(old(State()), j)
    {
      if jobs[j].session in tails && tails[jobs[j].session] == j {
        tails := tails - {jobs[j].session};
      }
    }

    method CloseAll(abortsAll: bool)
      modifies this
      ensures State() == Close(old(State()), abortsAll)
    {
      closed := true;
      if abortsAll {
        for i := 0 to |jobs|
          invariant |jobs| == old(|jobs|) && tails == old(tails) && closed && log == old(log)
          invariant forall k | 0 <= k < |jobs| :: jobs[k] == if k < i then Aborted(old(jobs)[k]) else old(jobs)[k]
        {
          if !jobs[i].settled { jobs := jobs[i := jobs[i].(aborted := true)]; }
        }
        assert jobs == Close(old(State()), true).jobs;
      }
    }
  }
}
