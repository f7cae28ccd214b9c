/**
 Per-Session admission slots for top-level Tasks.

 A lease is a handle: it names the slot it was created for and remembers the owner version
 the slot had at that moment. A handle is live while its slot is unreleased and still at that
 version, so transferring a slot kills the old handle and releasing it kills the last one.
 */
module SessionTaskQuota {
  import opened Common

  datatype Pool = A2A | AsyncTool

  datatype QuotaKey = QuotaKey(sessionId: string, pool: Pool)

  datatype Limits = Limits(a2a: nat, asyncTool: nat)

  datatype Slot = Slot(key: QuotaKey, ownerVersion: nat, released: bool)

  datatype Lease = Lease(slot: nat, key: QuotaKey, version: nat)

  datatype Quota = Quota(limits: Limits, active: map<QuotaKey, nat>, slots: seq<Slot>)

  datatype QuotaError = BlankSession | NotOwned | InconsistentCount

  datatype Admission = Acquired(lease: Lease) | LimitReached(pool: Pool, maxActive: nat)

  const MAX_SAFE_INTEGER: nat := 9007199254740991

  predicate ValidLimits(limits: Limits) {
    0 < limits.a2a <= MAX_SAFE_INTEGER && 0 < limits.asyncTool <= MAX_SAFE_INTEGER
  }

  function LimitOf(limits: Limits, pool: Pool): nat {
    if pool == A2A then limits.a2a else limits.asyncTool
  }

  function Active(q: Quota, key: QuotaKey): nat {
    if key in q.active then q.active[key] else 0
  }

  // ---------------------------------------------------------------- operations

  function AddSlot(q: Quota, key: QuotaKey): (Quota, Lease) {
    (q.(active := q.active[key := Active(q, key) + 1], slots := q.slots + [Slot(key, 0, false)]),
     Lease(|q.slots|, key, 0))
  }

  function Acquire(q: Quota, sessionId: string, pool: Pool): (Quota, Result<Admission, QuotaError>) {
    var key := QuotaKey(sessionId, pool);
    if Blank(sessionId) then (q, Err(BlankSession))
    else if Active(q, key) >= LimitOf(q.limits, pool) then
      (q, Ok(LimitReached(pool, LimitOf(q.limits, pool))))
    else
      var (q', lease) := AddSlot(q, key);
      (q', Ok(Acquired(lease)))
  }

  /** Rebuilds one already-admitted slot; the limit is deliberately not applied. */
  function Restore(q: Quota, sessionId: string, pool: Pool): (Quota, Result<Lease, QuotaError>) {
    if Blank(sessionId) then (q, Err(BlankSession))
    else
      var (q', lease) := AddSlot(q, QuotaKey(sessionId, pool));
      (q', Ok(lease))
  }

  predicate Live(q: Quota, lease: Lease) {
    && lease.slot < |q.slots|
    && !q.slots[lease.slot].released
    && q.slots[lease.slot].ownerVersion == lease.version
    && q.slots[lease.slot].key == lease.key
  }

  function Release(q: Quota, lease: Lease): (Quota, Result<(), QuotaError>) {
    if !Live(q, lease) then (q, Ok(()))
    else
      var marked := q.(slots := q.slots[lease.slot := q.slots[lease.slot].(released := true)]);
      var next := Active(q, lease.key) - 1;
      if next < 0 then (marked, Err(InconsistentCount))
      else if next == 0 then (marked.(active := q.active - {lease.key}), Ok(()))
      else (marked.(active := q.active[lease.key := next]), Ok(()))
  }

  function Transfer(q: Quota, lease: Lease): (Quota, Result<Lease, QuotaError>) {
    if !Live(q, lease) then (q, Err(NotOwned))
    else
      var slot := q.slots[lease.slot];
      (q.(slots := q.slots[lease.slot := slot.(ownerVersion := slot.ownerVersion + 1)]),
       Ok(Lease(lease.slot, lease.key, slot.ownerVersion + 1)))
  }

  // ---------------------------------------------------------------- what the counters mean

  /** The one live handle of every unreleased slot. */
  ghost function LiveLeases(q: Quota): set<Lease> {
    set i | 0 <= i < |q.slots| && !q.slots[i].released :: Lease(i, q.slots[i].key, q.slots[i].ownerVersion)
  }

  ghost function WithKey(leases: set<Lease>, key: QuotaKey): set<Lease> {
    set l | l in leases && l.key == key
  }

  /** Every counter is the number of live handles of its key, and no zero counter is stored. */
  ghost predicate Consistent(q: Quota) {
    && (forall key :: Active(q, key) == |WithKey(LiveLeases(q), key)|)
    && (forall key | key in q.active :: q.active[key] > 0)
  }

  lemma LiveIsMember(q: Quota, lease: Lease)
    ensures Live(q, lease) <==> lease in LiveLeases(q)
  {
  }

  /** Counters that follow a set of handles stay consistent when handles come and go. */
  lemma ConsistentAfter(q: Quota, q': Quota, gone: set<Lease>, come: set<Lease>, key: QuotaKey)
    requires Consistent(q)
    requires LiveLeases(q') == LiveLeases(q) - gone + come
    requires gone <= LiveLeases(q) && come !! LiveLeases(q)
    requires forall l | l in gone + come :: l.key == key
    requires forall k | k != key :: Active(q', k) == Active(q, k)
    requires Active(q', key) == Active(q, key) - |gone| + |come|
    requires forall k | k in q'.active :: q'.active[k] > 0
    ensures Consistent(q')
  {
    var live, live' := LiveLeases(q), LiveLeases(q');
    forall k ensures Active(q', k) == |WithKey(live', k)| {
      WithKeyAfter(live, live', gone, come, key, k);
      assert Active(q, k) == |WithKey(live, k)|;
    }
  }

  lemma WithKeyAfter(live: set<Lease>, live': set<Lease>, gone: set<Lease>, come: set<Lease>, key: QuotaKey, k: QuotaKey)
    requires live' == live - gone + come && gone <= live && come !! live
    requires forall l | l in gone + come :: l.key == key
    ensures |WithKey(live', k)| == |WithKey(live, k)| + (if k == key then |come| - |gone| else 0)
  {
    var before := WithKey(live, k);
    if k == key {
      assert WithKey(live', k) == (before - gone) + come;
      assert before == (before - gone) + gone;
    } else {
      assert WithKey(live', k) == before;
    }
  }

  lemma AddSlotLeases(q: Quota, key: QuotaKey)
    requires Consistent(q)
    ensures var (q', lease) := AddSlot(q, key);
            Consistent(q') && lease !in LiveLeases(q) && LiveLeases(q') == LiveLeases(q) + {lease}
  {
    var (q', lease) := AddSlot(q, key);
    forall l ensures l in LiveLeases(q') <==> l in LiveLeases(q) || l == lease {
      LiveIsMember(q, l);
      LiveIsMember(q', l);
    }
    ConsistentAfter(q, q', {}, {lease}, key);
  }

  /** Releasing a live handle removes exactly that handle; the count error cannot occur. */
  lemma ReleaseLeases(q: Quota, lease: Lease)
    requires Consistent(q)
    ensures var (q', r) := Release(q, lease);
            r.Ok? && Consistent(q') && LiveLeases(q') == LiveLeases(q) - {lease}
  {
    var (q', r) := Release(q, lease);
    LiveIsMember(q, lease);
    if lease in LiveLeases(q) {
      assert lease in WithKey(LiveLeases(q), lease.key);
      assert Active(q, lease.key) > 0;
      forall l ensures l in LiveLeases(q') <==> l in LiveLeases(q) && l != lease {
        LiveIsMember(q, l);
        LiveIsMember(q', l);
      }
      ConsistentAfter(q, q', {lease}, {}, lease.key);
    }
  }

  /** A transfer swaps one live handle for a new one and leaves every count alone. */
  lemma TransferLeases(q: Quota, lease: Lease)
    requires Consistent(q) && lease in LiveLeases(q)
    ensures var (q', r) := Transfer(q, lease);
            && r.Ok? && Consistent(q') && r.value.key == lease.key
            && r.value !in LiveLeases(q) && LiveLeases(q') == LiveLeases(q) - {lease} + {r.value}
  {
    LiveIsMember(q, lease);
    var (q', r) := Transfer(q, lease);
    forall l ensures l in LiveLeases(q') <==> (l in LiveLeases(q) && l != lease) || l == r.value {
      LiveIsMember(q, l);
      LiveIsMember(q', l);
    }
    ConsistentAfter(q, q', {lease}, {r.value}, lease.key);
  }

  // ---------------------------------------------------------------- whole runs

  datatype Step =
    | AcquireStep(sessionId: string, pool: Pool)
    | RestoreStep(sessionId: string, pool: Pool)
    | ReleaseStep(lease: Lease)
    | TransferStep(lease: Lease)

  /** The service together with every handle it ever gave out and the last error it raised. */
  datatype World = World(quota: Quota, issued: set<Lease>, error: Option<QuotaError>)

  /** Callers may use any handle they were given, including dead ones, but cannot forge one. */
  function Apply(w: World, step: Step): World {
    match step
    case AcquireStep(s, p) =>
      var (q, r) := Acquire(w.quota, s, p);
      World(q,
            if r.Ok? && r.value.Acquired? then w.issued + {r.value.lease} else w.issued,
            if r.Err? then Some(r.error) else None)
    case RestoreStep(s, p) =>
      var (q, r) := Restore(w.quota, s, p);
      World(q, if r.Ok? then w.issued + {r.value} else w.issued, if r.Err? then Some(r.error) else None)
    case ReleaseStep(l) =>
      if l !in w.issued then w
      else var (q, r) := Release(w.quota, l); World(q, w.issued, if r.Err? then Some(r.error) else None)
    case TransferStep(l) =>
      if l !in w.issued then w
      else
        var (q, r) := Transfer(w.quota, l);
        World(q, if r.Ok? then w.issued + {r.value} else w.issued, if r.Err? then Some(r.error) else None)
  }

  function Run(w: World, steps: seq<Step>): World {
    if steps == [] then w else Apply(Run(w, steps[..|steps| - 1]), steps[|steps| - 1])
  }

  function Start(limits: Limits): World {
    World(Quota(limits, map[], []), {}, None)
  }

  ghost predicate Sound(w: World) {
    Consistent(w.quota) && LiveLeases(w.quota) <= w.issued && w.error != Some(InconsistentCount)
  }

  lemma ApplySound(w: World, step: Step)
    requires Sound(w)
    ensures Sound(Apply(w, step)) && Apply(w, step).quota.limits == w.quota.limits
  {
    match step
    case AcquireStep(s, p) => AddSlotLeases(w.quota, QuotaKey(s, p));
    case RestoreStep(s, p) => AddSlotLeases(w.quota, QuotaKey(s, p));
    case ReleaseStep(l) => if l in w.issued { ReleaseLeases(w.quota, l); }
    case TransferStep(l) =>
      LiveIsMember(w.quota, l);
      if l in w.issued && l in LiveLeases(w.quota) { TransferLeases(w.quota, l); }
  }

  /**
   Over every run: each counter is the number of unreleased slots of its key, every
   unreleased slot has exactly one live handle among all handles ever issued, and the
   "count is inconsistent" error is never raised.
   */
  lemma {:induction false} LeasesAreLinear(limits: Limits, steps: seq<Step>)
    ensures var w := Run(Start(limits), steps);
            && Sound(w) && w.quota.limits == limits
            && (forall i | 0 <= i < |w.quota.slots| && !w.quota.slots[i].released ::
                  exists l :: l in w.issued && Live(w.quota, l) && l.slot == i)
            && (forall l, l' | l in w.issued && l' in w.issued && Live(w.quota, l) && Live(w.quota, l') && l.slot == l'.slot ::
                  l == l')
  {
    var w := Run(Start(limits), steps);
    if steps == [] {
      assert LiveLeases(w.quota) == {};
      forall key ensures WithKey(LiveLeases(w.quota), key) == {} {}
    } else {
      LeasesAreLinear(limits, steps[..|steps| - 1]);
      ApplySound(Run(Start(limits), steps[..|steps| - 1]), steps[|steps| - 1]);
    }
    forall i | 0 <= i < |w.quota.slots| && !w.quota.slots[i].released
      ensures exists l :: l in w.issued && Live(w.quota, l) && l.slot == i
    {
      var l := Lease(i, w.quota.slots[i].key, w.quota.slots[i].ownerVersion);
      assert l in LiveLeases(w.quota);
      assert Live(w.quota, l);
    }
  }

  /** An acquire that succeeds leaves its count within the limit; one that is refused found it full. */
  lemma AcquireRespectsLimit(limits: Limits, steps: seq<Step>, sessionId: string, pool: Pool)
    requires !Blank(sessionId)
    ensures var q := Run(Start(limits), steps).quota;
            var key := QuotaKey(sessionId, pool);
            var (q', r) := Acquire(q, sessionId, pool);
            && r.Ok?
            && (r.value.Acquired? <==> |WithKey(LiveLeases(q), key)| < LimitOf(limits, pool))
            && (r.value.Acquired? ==> |WithKey(LiveLeases(q'), key)| == |WithKey(LiveLeases(q), key)| + 1 <= LimitOf(limits, pool))
  {
    LeasesAreLinear(limits, steps);
    LeasesAreLinear(limits, steps + [AcquireStep(sessionId, pool)]);
    assert (steps + [AcquireStep(sessionId, pool)])[..|steps|] == steps;
    var w := Run(Start(limits), steps);
    assert Consistent(w.quota);
    assert Active(w.quota, QuotaKey(sessionId, pool)) == |WithKey(LiveLeases(w.quota), QuotaKey(sessionId, pool))|;
  }

  // ---------------------------------------------------------------- the service object

  /** The source's service: a counter map and the slots its lease closures mutate. */
  class SessionTaskQuotaService {
    const limits: Limits
    var activeBySessionAndPool: map<QuotaKey, nat>
    var slots: seq<Slot>

    function State(): Quota
      reads this
    {
      Quota(limits, activeBySessionAndPool, slots)
    }

    constructor (limits: Limits)
      requires ValidLimits(limits)
      ensures State() == Start(limits).quota
    {
      this.limits := limits;
      activeBySessionAndPool := map[];
      slots := [];
    }

    method AcquireLease(sessionId: string, pool: Pool) returns (r: Result<Admission, QuotaError>)
      modifies this
      ensures (State(), r) == Acquire(old(State()), sessionId, pool)
    {
      if Blank(sessionId) { return Err(BlankSession); }
      var limit := if pool == A2A then limits.a2a else limits.asyncTool;
      var key := QuotaKey(sessionId, pool);
      var current := if key in activeBySessionAndPool then activeBySessionAndPool[key] else 0;
      if current >= limit { return Ok(LimitReached(pool, limit)); }
      activeBySessionAndPool := activeBySessionAndPool[key := current + 1];
      slots := slots + [Slot(key, 0, false)];
      return Ok(Acquired(Lease(|slots| - 1, key, 0)));
    }

    method RestoreLease(sessionId: string, pool: Pool) returns (r: Result<Lease, QuotaError>)
      modifies this
      ensures (State(), r) == Restore(old(State()), sessionId, pool)
    {
      if Blank(sessionId) { return Err(BlankSession); }
      var key := QuotaKey(sessionId, pool);
      var current := if key in activeBySessionAndPool then activeBySessionAndPool[key] else 0;
      activeBySessionAndPool := activeBySessionAndPool[key := current + 1];
      slots := slots + [Slot(key, 0, false)];
      return Ok(Lease(|slots| - 1, key, 0));
    }

    method ReleaseLease(lease: Lease) returns (r: Result<(), QuotaError>)
      modifies this
      ensures (State(), r) == Release(old(State()), lease)
    {
      if !Live(State(), lease) { return Ok(()); }
      slots := slots[lease.slot := slots[lease.slot].(released := true)];
      r := AdjustCount(lease.key);
    }

    method TransferLease(lease: Lease) returns (r: Result<Lease, QuotaError>)
      modifies this
      ensures (State(), r) == Transfer(old(State()), lease)
    {
      if !Live(State(), lease) { return Err(NotOwned); }
      var slot := slots[lease.slot];
      slots := slots[lease.slot := slot.(ownerVersion := slot.ownerVersion + 1)];
      return Ok(Lease(lease.slot, lease.key, slot.ownerVersion + 1));
    }

    method AdjustCount(key: QuotaKey) returns (r: Result<(), QuotaError>)
      modifies this`activeBySessionAndPool
      ensures var before := old(Active(State(), key));
              && (r == if before == 0 then Err(InconsistentCount) else Ok(()))
              && activeBySessionAndPool ==
                 if before == 0 then old(activeBySessionAndPool)
                 else if before == 1 then old(activeBySessionAndPool) - {key}
                 else old(activeBySessionAndPool)[key := before - 1]
    {
      var current: int := if key in activeBySessionAndPool then activeBySessionAndPool[key] else 0;
      var next := current - 1;
      if next < 0 { return Err(InconsistentCount); }
      if next == 0 {
        activeBySessionAndPool := activeBySessionAndPool - {key};
      } else {
        activeBySessionAndPool := activeBySessionAndPool[key := next];
      }
      return Ok(());
    }
  }
}
