/**
 The JSONL event log: one file per run, a queue of appends per run, and a bounded cache of next
 sequence numbers that evicts under load. A step is one block between two awaits; appends to
 different runs interleave freely, writes may fail, and the process may crash at any point.
 */
module JsonlEventLog {
  import opened Common
  import opened EventLogs
  import Lru = SimpleLruMap

  type OpId = nat

  const MAX_SAFE_INTEGER: nat := 9007199254740991

  datatype Phase = Queued(previous: Option<OpId>) | Scanning | Writing(number: nat) | Written(number: nat)

  datatype Op = Op(draft: Draft, phase: Phase)

  datatype Log = Log(
    files: map<RunId, seq<Event>>,
    cache: Lru.Entries<RunId, nat>, capacity: nat,
    queues: map<RunId, OpId>, ops: map<OpId, Op>, next: OpId,
    written: seq<Draft>)          // the drafts written to files, in order of writing

  function FileOf(l: Log, run: RunId): seq<Event> {
    if run in l.files then l.files[run] else []
  }

  /** The largest number among a run's events, 0 if there are none. */
  function MaxSeq(events: seq<Event>, run: RunId): nat {
    if events == [] then 0
    else
      var n := |events| - 1;
      var before := MaxSeq(events[..n], run);
      if events[n].runId == run && events[n].number > before then events[n].number else before
  }

  method MaxExistingSeq(events: seq<Event>, run: RunId) returns (max: nat)
    ensures max == MaxSeq(events, run)
  {
    max := 0;
    for i := 0 to |events|
      invariant max == MaxSeq(events[..i], run)
    {
      assert events[..i + 1][..i] == events[..i];
      if events[i].runId == run && events[i].number > max { max := events[i].number; }
    }
    assert events[..|events|] == events;
  }

  // ---------------------------------------------------------------- steps

  datatype Step =
    | AppendStep(draft: Draft)
    | StartStep(op: OpId)
    | ScanStep(op: OpId, ok: bool)
    | WriteStep(op: OpId, ok: bool)
    | FinishStep(op: OpId)
    | CrashStep

  function RunOf(l: Log, op: OpId): RunId
    requires op in l.ops
  {
    l.ops[op].draft.runId
  }

  function SetPhase(l: Log, op: OpId, phase: Phase): Log
    requires op in l.ops
  {
    l.(ops := l.ops[op := l.ops[op].(phase := phase)])
  }

  /** The operation settles; the queue entry goes if it is still the last one. */
  function End(l: Log, op: OpId): Log
    requires op in l.ops
  {
    var run := RunOf(l, op);
    l.(ops := l.ops - {op},
       queues := if run in l.queues && l.queues[run] == op then l.queues - {run} else l.queues)
  }

  function Enqueue(l: Log, d: Draft): Log {
    var previous := if d.runId in l.queues then Some(l.queues[d.runId]) else None;
    l.(ops := l.ops[l.next := Op(d, Queued(previous))], queues := l.queues[d.runId := l.next], next := l.next + 1)
  }

  predicate CanStart(l: Log, op: OpId) {
    op in l.ops && l.ops[op].phase.Queued? && (l.ops[op].phase.previous.Some? ==> l.ops[op].phase.previous.value !in l.ops)
  }

  /** A cached number is used; otherwise the file must be scanned. */
  function Start(l: Log, op: OpId): Log
    requires op in l.ops
  {
    var (cache, hit) := Lru.Get(l.cache, RunOf(l, op));
    SetPhase(l.(cache := cache), op, if hit.Some? then Writing(hit.value) else Scanning)
  }

  function Scan(l: Log, op: OpId, ok: bool): Log
    requires op in l.ops
  {
    var max := MaxSeq(FileOf(l, RunOf(l, op)), RunOf(l, op));
    if !ok || max == MAX_SAFE_INTEGER then End(l, op)
    else SetPhase(l.(cache := Lru.Set(l.cache, l.capacity, RunOf(l, op), max + 1)), op, Writing(max + 1))
  }

  /** A failed write leaves the file as it was. */
  function Write(l: Log, op: OpId, ok: bool): Log
    requires op in l.ops && l.ops[op].phase.Writing?
  {
    if !ok then End(l, op)
    else
      var d, number := l.ops[op].draft, l.ops[op].phase.number;
      SetPhase(l.(files := l.files[d.runId := FileOf(l, d.runId) + [Event(number, d.runId, d.data)]], written := l.written + [d]),
               op, Written(number))
  }

  function Finish(l: Log, op: OpId): Log
    requires op in l.ops && l.ops[op].phase.Written?
  {
    var run, number := RunOf(l, op), l.ops[op].phase.number;
    End(l.(cache := if number == MAX_SAFE_INTEGER then Lru.Delete(l.cache, run) else Lru.Set(l.cache, l.capacity, run, number + 1)), op)
  }

  predicate Enabled(l: Log, step: Step) {
    match step
    case StartStep(op) => CanStart(l, op)
    case ScanStep(op, _) => op in l.ops && l.ops[op].phase.Scanning?
    case WriteStep(op, _) => op in l.ops && l.ops[op].phase.Writing?
    case FinishStep(op) => op in l.ops && l.ops[op].phase.Written?
    case _ => true
  }

  function Perform(l: Log, step: Step): Log
    requires Enabled(l, step)
  {
    match step
    case AppendStep(d) => Enqueue(l, d)
    case StartStep(op) => Start(l, op)
    case ScanStep(op, ok) => Scan(l, op, ok)
    case WriteStep(op, ok) => Write(l, op, ok)
    case FinishStep(op) => Finish(l, op)
    case CrashStep => l.(cache := [], queues := map[], ops := map[])
  }

  function Apply(l: Log, step: Step): Log {
    if Enabled(l, step) then Perform(l, step) else l
  }

  function Run(l: Log, steps: seq<Step>): Log {
    if steps == [] then l else Apply(Run(l, steps[..|steps| - 1]), steps[|steps| - 1])
  }

  function Begin(capacity: nat): Log {
    Log(map[], [], capacity, map[], map[], 0, [])
  }

  // ---------------------------------------------------------------- the queues

  /** The queue entry of a run is its last operation. */
  ghost predicate Tailed(l: Log) {
    && (forall o | o in l.ops :: o < l.next && RunOf(l, o) in l.queues && o <= l.queues[RunOf(l, o)])
    && (forall r | r in l.queues :: l.queues[r] in l.ops && RunOf(l, l.queues[r]) == r)
  }

  predicate SameRun(l: Log, o: OpId, p: OpId) {
    o in l.ops && p in l.ops && RunOf(l, o) == RunOf(l, p)
  }

  /** `o` waits for `p`, or for an operation behind `p`. */
  predicate WaitsBehind(l: Log, o: OpId, p: OpId) {
    && o in l.ops && l.ops[o].phase.Queued? && l.ops[o].phase.previous.Some?
    && var q := l.ops[o].phase.previous.value; q in l.ops && p <= q < o && SameRun(l, o, q)
  }

  /** An operation with an earlier one of its run waits for the last such one. */
  ghost predicate Chained(l: Log) {
    Tailed(l) && forall o, p | SameRun(l, o, p) && p < o :: WaitsBehind(l, o, p)
  }

  predicate Started(l: Log, op: OpId) {
    op in l.ops && (!l.ops[op].phase.Queued? || CanStart(l, op))
  }

  /** An operation that may run is the first of its run, so two of the same run never run together. */
  lemma StartedIsFirst(l: Log, op: OpId, other: OpId)
    requires Chained(l) && Started(l, op) && SameRun(l, op, other)
    ensures op <= other && (Started(l, other) ==> other == op)
  {
    assert other < op ==> WaitsBehind(l, op, other);
    assert op < other ==> WaitsBehind(l, other, op);
  }

  lemma EnqueueChained(l: Log, d: Draft)
    requires Chained(l)
    ensures Chained(Enqueue(l, d))
  {
    var l' := Enqueue(l, d);
    assert forall o | o in l.ops :: l'.ops[o] == l.ops[o];
    forall o, p | SameRun(l', o, p) && p < o ensures WaitsBehind(l', o, p) {
      if o != l.next { assert SameRun(l, o, p) && WaitsBehind(l, o, p); }
    }
  }

  lemma PhaseChained(l: Log, l': Log, op: OpId, phase: Phase)
    requires Chained(l) && Started(l, op) && !phase.Queued?
    requires l'.ops == l.ops[op := l.ops[op].(phase := phase)] && l'.queues == l.queues && l'.next == l.next
    ensures Chained(l')
  {
    forall o, p | SameRun(l', o, p) && p < o ensures WaitsBehind(l', o, p) {
      assert SameRun(l, o, p) && WaitsBehind(l, o, p);
      if o == op { StartedIsFirst(l, op, p); }
    }
  }

  lemma EndChained(l: Log, op: OpId)
    requires Chained(l) && Started(l, op)
    ensures Chained(End(l, op))
  {
    var l' := End(l, op);
    forall o | o in l'.ops ensures o < l'.next && RunOf(l', o) in l'.queues && o <= l'.queues[RunOf(l', o)] {
      if RunOf(l, o) == RunOf(l, op) { StartedIsFirst(l, op, o); }
    }
    forall o, p | SameRun(l', o, p) && p < o ensures WaitsBehind(l', o, p) {
      assert SameRun(l, o, p) && WaitsBehind(l, o, p);
      if RunOf(l, o) == RunOf(l, op) { StartedIsFirst(l, op, p); }
    }
  }

  // ---------------------------------------------------------------- files and cache

  /** Some append has written its line and not yet updated the cache. */
  ghost predicate Settling(l: Log, run: RunId) {
    exists op :: op in l.ops && RunOf(l, op) == run && l.ops[op].phase.Written?
  }

  ghost predicate OpOk(l: Log, op: OpId)
    requires op in l.ops
  {
    var size := |FileOf(l, RunOf(l, op))|;
    match l.ops[op].phase
    case Writing(number) => number == size + 1 && number <= MAX_SAFE_INTEGER
    case Written(number) => number == size
    case _ => true
  }

  /** A cached number is the file's next one, except between a write and the cache update behind it. */
  ghost predicate CacheOk(l: Log) {
    && l.capacity >= 1 && Lru.DistinctKeys(l.cache) && |l.cache| <= l.capacity
    && forall e | e in l.cache ::
         e.value <= MAX_SAFE_INTEGER && e.value == |FileOf(l, e.key)| + (if Settling(l, e.key) then 0 else 1)
  }

  ghost predicate FilesOk(l: Log) {
    forall run :: Numbered(FileOf(l, run), run) && |FileOf(l, run)| <= MAX_SAFE_INTEGER
  }

  ghost predicate MatchesMemory(l: Log) {
    forall run :: FileOf(l, run) == OfRun(AppendAll(l.written).events, run)
  }

  ghost predicate Ok(l: Log) {
    Chained(l) && FilesOk(l) && CacheOk(l) && MatchesMemory(l) && forall op | op in l.ops :: OpOk(l, op)
  }

  lemma {:induction false} MaxOfNumbered(events: seq<Event>, run: RunId)
    requires Numbered(events, run)
    ensures MaxSeq(events, run) == |events|
  {
    if events != [] { MaxOfNumbered(events[..|events| - 1], run); }
  }

  // ---------------------------------------------------------------- every step keeps the account

  lemma SettlingSame(l: Log, l': Log, run: RunId)
    requires forall op :: op in l'.ops && RunOf(l', op) == run && l'.ops[op].phase.Written? <==> op in l.ops && RunOf(l, op) == run && l.ops[op].phase.Written?
    ensures Settling(l', run) == Settling(l, run)
  {
  }

  lemma EnqueueOk(l: Log, d: Draft)
    requires Ok(l)
    ensures Ok(Enqueue(l, d))
  {
    hide Chained, Numbered, MatchesMemory, FilesOk, Settling, Enqueue, OpOk;
    EnqueueChained(l, d);
    var l' := Enqueue(l, d);
    EnqueueParts(l, d);
    FilesSame(l, l');
    MemorySame(l, l');
    assert CacheOk(l') by { assert forall run :: FileOf(l', run) == FileOf(l, run); }
    forall op | op in l'.ops ensures OpOk(l', op) { EnqueuedOp(l, d, op); }
  }

  lemma EnqueueParts(l: Log, d: Draft)
    requires Chained(l)
    ensures var l' := Enqueue(l, d);
            && l'.files == l.files && l'.written == l.written && l'.cache == l.cache && l'.capacity == l.capacity
            && forall run :: Settling(l', run) == Settling(l, run)
  {
    var l' := Enqueue(l, d);
    assert forall o | o in l.ops :: o != l.next && l'.ops[o] == l.ops[o];
    hide Chained;
    forall run ensures Settling(l', run) == Settling(l, run) { hide Settling; SettlingSame(l, l', run); }
  }

  lemma EnqueuedOp(l: Log, d: Draft, op: OpId)
    requires op in Enqueue(l, d).ops && Chained(l) && (op in l.ops ==> OpOk(l, op))
    ensures OpOk(Enqueue(l, d), op)
  {
    assert op in l.ops ==> op != l.next;
    hide Chained;
  }

  lemma MemorySame(l: Log, l': Log)
    requires MatchesMemory(l) && l'.files == l.files && l'.written == l.written
    ensures MatchesMemory(l')
  {
    forall run ensures FileOf(l', run) == OfRun(AppendAll(l'.written).events, run) {
      assert FileOf(l, run) == OfRun(AppendAll(l.written).events, run);
    }
  }

  /** A step that changes no file: the running operation moves on, or ends, and the cache follows. */
  lemma QuietOk(l: Log, l': Log, op: OpId)
    requires Ok(l) && Started(l, op) && !l.ops[op].phase.Written?
    requires l'.files == l.files && l'.written == l.written && l'.capacity == l.capacity
    requires l'.ops == l.ops - {op} || (op in l'.ops && l'.ops == l.ops[op := l'.ops[op]] && l'.ops[op].draft == l.ops[op].draft
                                        && !l'.ops[op].phase.Queued? && !l'.ops[op].phase.Written? && OpOk(l', op))
    requires Chained(l') && Lru.DistinctKeys(l'.cache) && |l'.cache| <= l'.capacity
    requires forall e | e in l'.cache :: e in l.cache || (e.key == RunOf(l, op) && e.value == |FileOf(l, e.key)| + 1 && e.value <= MAX_SAFE_INTEGER)
    ensures Ok(l')
  {
    hide Chained, Numbered, FilesOk, MatchesMemory, CacheOk, Settling, OpOk, Lru.DistinctKeys;
    FilesSame(l, l');
    MemorySame(l, l');
    QuietCache(l, l', op);
    forall o | o in l'.ops ensures OpOk(l', o) { if o != op { OpSame(l, l', o); } }
  }

  /** The operation that moves on had not written, so no run begins or stops settling. */
  lemma QuietSettling(l: Log, l': Log, op: OpId, run: RunId)
    requires op in l.ops && !l.ops[op].phase.Written?
    requires l'.ops == l.ops - {op} || (op in l'.ops && l'.ops == l.ops[op := l'.ops[op]] && !l'.ops[op].phase.Written?)
    ensures Settling(l', run) == Settling(l, run)
  {
    hide Settling;
    SettlingSame(l, l', run);
  }

  lemma QuietCache(l: Log, l': Log, op: OpId)
    requires Chained(l) && CacheOk(l) && Started(l, op) && !l.ops[op].phase.Written?
    requires l'.files == l.files && l'.capacity == l.capacity
    requires l'.ops == l.ops - {op} || (op in l'.ops && l'.ops == l.ops[op := l'.ops[op]] && !l'.ops[op].phase.Written?)
    requires Lru.DistinctKeys(l'.cache) && |l'.cache| <= l'.capacity
    requires forall e | e in l'.cache :: e in l.cache || (e.key == RunOf(l, op) && e.value == |FileOf(l, e.key)| + 1 && e.value <= MAX_SAFE_INTEGER)
    ensures CacheOk(l')
  {
    hide Chained, Settling, Lru.DistinctKeys;
    NotSettling(l, op);
    forall e | e in l'.cache ensures Settling(l', e.key) == Settling(l, e.key) && FileOf(l', e.key) == FileOf(l, e.key) {
      QuietSettling(l, l', op, e.key);
    }
    hide FileOf;
  }

  /** While an operation runs that has not written yet, its run's cache is settled. */
  lemma NotSettling(l: Log, op: OpId)
    requires Chained(l) && Started(l, op) && !l.ops[op].phase.Written?
    ensures !Settling(l, RunOf(l, op))
  {
    forall o | o in l.ops && RunOf(l, o) == RunOf(l, op) ensures !l.ops[o].phase.Written? {
      assert SameRun(l, op, o);
      if l.ops[o].phase.Written? { StartedIsFirst(l, op, o); }
    }
    hide Chained;
  }

  lemma FileFacts(l: Log, run: RunId)
    requires FilesOk(l)
    ensures Numbered(FileOf(l, run), run) && |FileOf(l, run)| <= MAX_SAFE_INTEGER && MaxSeq(FileOf(l, run), run) == |FileOf(l, run)|
  {
    MaxOfNumbered(FileOf(l, run), run);
    hide Numbered;
  }

  lemma StartOk(l: Log, op: OpId)
    requires Ok(l) && CanStart(l, op)
    ensures Ok(Start(l, op))
  {
    hide Chained, Numbered, MatchesMemory, FilesOk, Lru.Get, Lru.DistinctKeys;
    var run := RunOf(l, op);
    var (cache, hit) := Lru.Get(l.cache, run);
    Lru.GetKeeps(l.cache, run);
    var l' := Start(l, op);
    PhaseChained(l, l', op, if hit.Some? then Writing(hit.value) else Scanning);
    NotSettling(l, op);
    assert hit.Some? ==> Lru.Entry(run, hit.value) in l.cache;
    QuietOk(l, l', op);
  }

  lemma EndOk(l: Log, op: OpId)
    requires Ok(l) && Started(l, op) && !l.ops[op].phase.Written?
    ensures Ok(End(l, op))
  {
    hide Numbered, MatchesMemory, FilesOk, Lru.DistinctKeys, Chained;
    EndChained(l, op);
    QuietOk(l, End(l, op), op);
  }

  lemma ScanOk(l: Log, op: OpId, ok: bool)
    requires Ok(l) && op in l.ops && l.ops[op].phase.Scanning?
    ensures Ok(Scan(l, op, ok))
  {
    hide Numbered, MatchesMemory, Lru.DistinctKeys, Chained, MaxSeq, Lru.Set;
    EndOk(l, op);
    var run := RunOf(l, op);
    FileFacts(l, run);
    hide FilesOk;
    if ok && |FileOf(l, run)| < MAX_SAFE_INTEGER {
      var l' := Scan(l, op, ok);
      Lru.SetKeeps(l.cache, l.capacity, run, |FileOf(l, run)| + 1);
      PhaseChained(l, l', op, Writing(|FileOf(l, run)| + 1));
      QuietOk(l, l', op);
    }
  }

  lemma WriteOk(l: Log, op: OpId, ok: bool)
    requires Ok(l) && op in l.ops && l.ops[op].phase.Writing?
    ensures Ok(Write(l, op, ok))
  {
    hide Chained, Numbered, MatchesMemory, FilesOk, CacheOk;
    EndOk(l, op);
    if ok {
      var l' := Write(l, op, ok);
      var d, number := l.ops[op].draft, l.ops[op].phase.number;
      assert OpOk(l, op);
      PhaseChained(l, l', op, Written(number));
      WrittenFiles(l, l', d, number);
      WrittenCache(l, l', op);
      forall o | o in l'.ops ensures OpOk(l', o) {
        assert OpOk(l, o);
        if o != op && RunOf(l, o) == d.runId { OthersWait(l, op, o); }
      }
    }
  }

  /** Behind a started operation the others of its run are still queued. */
  lemma OthersWait(l: Log, op: OpId, o: OpId)
    requires Chained(l) && Started(l, op) && SameRun(l, op, o) && o != op
    ensures l.ops[o].phase.Queued?
  {
    StartedIsFirst(l, op, o);
    hide Chained;
  }

  lemma WrittenFiles(l: Log, l': Log, d: Draft, number: nat)
    requires FilesOk(l) && MatchesMemory(l) && number == |FileOf(l, d.runId)| + 1 <= MAX_SAFE_INTEGER
    requires l'.files == l.files[d.runId := FileOf(l, d.runId) + [Event(number, d.runId, d.data)]] && l'.written == l.written + [d]
    ensures FilesOk(l') && MatchesMemory(l')
    ensures forall run :: |FileOf(l', run)| == |FileOf(l, run)| + (if run == d.runId then 1 else 0)
  {
    hide OfRun, AppendAll;
    assert (l.written + [d])[..|l.written|] == l.written;
    forall run ensures FileOf(l', run) == OfRun(AppendAll(l'.written).events, run) {
      AppendAllStep(l.written, d);
      AppendRead(AppendAll(l.written), d, run);
      AppendAllNumbers(l.written, run);
      assert FileOf(l, run) == OfRun(AppendAll(l.written).events, run);
    }
    hide MatchesMemory, Append;
    forall run ensures Numbered(FileOf(l', run), run) && |FileOf(l', run)| <= MAX_SAFE_INTEGER {
      assert Numbered(FileOf(l, run), run) && |FileOf(l, run)| <= MAX_SAFE_INTEGER;
    }
  }

  lemma AppendAllStep(drafts: seq<Draft>, d: Draft)
    ensures AppendAll(drafts + [d]) == Append(AppendAll(drafts), d).0
  {
    assert (drafts + [d])[..|drafts|] == drafts;
    hide Append;
  }

  lemma WrittenCache(l: Log, l': Log, op: OpId)
    requires CacheOk(l) && Chained(l) && Started(l, op) && !l.ops[op].phase.Written? && l'.cache == l.cache && l'.capacity == l.capacity
    requires op in l'.ops && l'.ops[op].phase.Written? && l'.ops[op].draft == l.ops[op].draft && l'.ops == l.ops[op := l'.ops[op]]
    requires forall run :: |FileOf(l', run)| == |FileOf(l, run)| + (if run == RunOf(l, op) then 1 else 0)
    ensures CacheOk(l')
  {
    NotSettling(l, op);
    hide Chained;
    assert Settling(l', RunOf(l, op)) by { assert RunOf(l', op) == RunOf(l, op); }
    forall run | run != RunOf(l, op) ensures Settling(l', run) == Settling(l, run) { SettlingSame(l, l', run); }
    hide Settling, FileOf;
  }

  lemma FinishOk(l: Log, op: OpId)
    requires Ok(l) && op in l.ops && l.ops[op].phase.Written?
    ensures Ok(Finish(l, op))
  {
    hide Numbered, MatchesMemory, FilesOk, Lru.DistinctKeys, Chained, Lru.Set, Lru.Delete, CacheOk, OpOk;
    var run, number := RunOf(l, op), l.ops[op].phase.number;
    var l' := Finish(l, op);
    EndChained(l, op);
    assert Chained(l') by { CacheOutside(End(l, op), l'); }
    FinishedCache(l, op);
    assert FilesOk(l') by { FilesSame(l, l'); }
    MemorySame(l, l');
    forall o | o in l'.ops ensures OpOk(l', o) { OpSame(l, l', o); }
  }

  lemma OpSame(l: Log, l': Log, o: OpId)
    requires o in l.ops && o in l'.ops && l'.ops[o] == l.ops[o] && l'.files == l.files && OpOk(l, o)
    ensures OpOk(l', o)
  {
  }

  lemma FilesSame(l: Log, l': Log)
    requires FilesOk(l) && l'.files == l.files
    ensures FilesOk(l')
  {
    hide Numbered;
    assert forall run :: FileOf(l', run) == FileOf(l, run);
  }

  lemma CacheOutside(l: Log, l': Log)
    requires Chained(l) && l'.ops == l.ops && l'.queues == l.queues && l'.next == l.next
    ensures Chained(l')
  {
    TailedSame(l, l');
    hide Tailed;
    forall o, p | SameRun(l', o, p) && p < o ensures WaitsBehind(l', o, p) { assert SameRun(l, o, p) && WaitsBehind(l, o, p); }
  }

  lemma TailedSame(l: Log, l': Log)
    requires Tailed(l) && l'.ops == l.ops && l'.queues == l.queues && l'.next == l.next
    ensures Tailed(l')
  {
  }

  lemma FinishedCache(l: Log, op: OpId)
    requires Ok(l) && op in l.ops && l.ops[op].phase.Written?
    ensures CacheOk(Finish(l, op))
  {
    hide Chained, Numbered, FilesOk, MatchesMemory, Settling, Lru.Set, Lru.Delete, Lru.DistinctKeys, Finish;
    var run, number := RunOf(l, op), l.ops[op].phase.number;
    assert OpOk(l, op);
    FileFacts(l, run);
    FinishParts(l, op);
    FinishedSettling(l, op);
    assert forall r :: FileOf(Finish(l, op), r) == FileOf(l, r);
    hide OpOk;
    Lru.DeleteDistinct(l.cache, run);
    if number != MAX_SAFE_INTEGER { Lru.SetKeeps(l.cache, l.capacity, run, number + 1); }
    hide FileOf;
  }

  lemma FinishParts(l: Log, op: OpId)
    requires op in l.ops && l.ops[op].phase.Written?
    ensures var l', run, number := Finish(l, op), RunOf(l, op), l.ops[op].phase.number;
            && l'.files == l.files && l'.capacity == l.capacity
            && l'.cache == if number == MAX_SAFE_INTEGER then Lru.Delete(l.cache, run) else Lru.Set(l.cache, l.capacity, run, number + 1)
  {
    hide Lru.Set, Lru.Delete;
  }

  /** Afterwards no write of the run is waiting for its cache update. */
  lemma FinishedSettling(l: Log, op: OpId)
    requires Chained(l) && op in l.ops && l.ops[op].phase.Written?
    ensures !Settling(Finish(l, op), RunOf(l, op))
    ensures forall r | r != RunOf(l, op) :: Settling(Finish(l, op), r) == Settling(l, r)
  {
    hide Chained, Settling, Lru.Set, Lru.Delete;
    var l', run := Finish(l, op), RunOf(l, op);
    forall r | r != run ensures Settling(l', r) == Settling(l, r) { SettlingSame(l, l', r); }
    forall o | o in l'.ops && RunOf(l', o) == run ensures !l'.ops[o].phase.Written? { OthersWait(l, op, o); }
    NoneSettling(l', run);
  }

  lemma NoneSettling(l: Log, run: RunId)
    requires forall o | o in l.ops && RunOf(l, o) == run :: !l.ops[o].phase.Written?
    ensures !Settling(l, run)
  {
  }

  lemma CrashOk(l: Log)
    requires Ok(l)
    ensures Ok(l.(cache := [], queues := map[], ops := map[]))
  {
    hide Numbered;
    var l' := l.(cache := [], queues := map[], ops := map[]);
    FilesSame(l, l');
    MemorySame(l, l');
  }

  lemma PerformOk(l: Log, step: Step)
    requires Ok(l) && Enabled(l, step)
    ensures Ok(Perform(l, step))
  {
    hide Ok, Enqueue, Start, Scan, Write, Finish;
    match step
    case AppendStep(d) => EnqueueOk(l, d);
    case StartStep(op) => StartOk(l, op);
    case ScanStep(op, ok) => ScanOk(l, op, ok);
    case WriteStep(op, ok) => WriteOk(l, op, ok);
    case FinishStep(op) => FinishOk(l, op);
    case CrashStep => CrashOk(l);
  }

  lemma {:induction false} RunOk(capacity: nat, steps: seq<Step>)
    requires capacity >= 1
    ensures Ok(Run(Begin(capacity), steps))
  {
    if steps == [] {
      assert AppendAll([]) == EMPTY;
    } else {
      hide Ok, Perform;
      var n := |steps| - 1;
      RunOk(capacity, steps[..n]);
      var l := Run(Begin(capacity), steps[..n]);
      if Enabled(l, steps[n]) { PerformOk(l, steps[n]); }
    }
  }

  /**
   For any capacity, any interleaving and any failed appends or crashes, every run's file holds
   exactly the numbers 1 to n in order, as the in-memory log numbers the same appends, and no
   number above the largest safe integer is ever written.
   */
  lemma FilesAreNumbered(capacity: nat, steps: seq<Step>, run: RunId)
    requires capacity >= 1
    ensures var l := Run(Begin(capacity), steps);
            && Numbered(FileOf(l, run), run) && |FileOf(l, run)| <= MAX_SAFE_INTEGER
            && FileOf(l, run) == OfRun(AppendAll(l.written).events, run)
  {
    RunOk(capacity, steps);
    hide Run, Chained, CacheOk, Numbered;
  }

  /**
   Every cached number is the file's maximum plus one, unless an append has written its line and is
   about to update the cache; and the cache never grows beyond its capacity.
   */
  lemma CacheAgreesWithFiles(capacity: nat, steps: seq<Step>, run: RunId)
    requires capacity >= 1
    ensures var l := Run(Begin(capacity), steps);
            && |l.cache| <= capacity
            && (Lru.Find(l.cache, run).Some? && !Settling(l, run) ==>
                  Lru.Find(l.cache, run).value == MaxSeq(FileOf(l, run), run) + 1 <= MAX_SAFE_INTEGER)
  {
    RunOk(capacity, steps);
    var l := Run(Begin(capacity), steps);
    FileFacts(l, run);
    CapacityStays(capacity, steps);
    hide Run, Chained, FilesOk, MatchesMemory, Settling;
  }

  lemma {:induction false} CapacityStays(capacity: nat, steps: seq<Step>)
    ensures Run(Begin(capacity), steps).capacity == capacity
  {
    if steps != [] {
      CapacityStays(capacity, steps[..|steps| - 1]);
      hide Lru.Get, Lru.Set, Lru.Delete, MaxSeq;
    }
  }

  // ---------------------------------------------------------------- the order of the queues

  /** The drafts that were appended, in the order of the calls: an operation's id is its place here. */
  function QueuedDrafts(steps: seq<Step>): seq<Draft> {
    if steps == [] then []
    else
      var last := steps[|steps| - 1];
      QueuedDrafts(steps[..|steps| - 1]) + (if last.AppendStep? then [last.draft] else [])
  }

  /** The operations that wrote their line, in the order of writing. */
  function Writers(capacity: nat, steps: seq<Step>): seq<OpId> {
    if steps == [] then []
    else
      var before, last := steps[..|steps| - 1], steps[|steps| - 1];
      Writers(capacity, before)
      + (if last.WriteStep? && last.ok && Enabled(Run(Begin(capacity), before), last) then [last.op] else [])
  }

  /** Writers of one run are in the order in which they were queued, and ahead of all that still wait. */
  ghost predicate QueueOrder(l: Log, queued: seq<Draft>, writers: seq<OpId>) {
    && |queued| == l.next && |writers| == |l.written|
    && (forall o | o in l.ops :: o < l.next && l.ops[o].draft == queued[o])
    && (forall i | 0 <= i < |writers| :: writers[i] < l.next && l.written[i] == queued[writers[i]])
    && (forall i, k | 0 <= i < k < |writers| && l.written[i].runId == l.written[k].runId :: writers[i] < writers[k])
    && (forall i, o | 0 <= i < |writers| && o in l.ops && RunOf(l, o) == l.written[i].runId ::
          writers[i] < o || (writers[i] == o && l.ops[o].phase.Written?))
  }

  lemma WriteKeepsOrder(l: Log, op: OpId, queued: seq<Draft>, writers: seq<OpId>)
    requires Chained(l) && QueueOrder(l, queued, writers) && op in l.ops && l.ops[op].phase.Writing?
    ensures QueueOrder(Write(l, op, true), queued, writers + [op])
  {
    hide Chained, QueueOrder, Write;
    forall o | o in l.ops && RunOf(l, o) == RunOf(l, op) && o != op ensures op < o {
      assert SameRun(l, op, o);
      StartedIsFirst(l, op, o);
    }
    WriteParts(l, op);
    LineKeepsOrder(l, Write(l, op, true), op, queued, writers);
  }

  lemma WriteParts(l: Log, op: OpId)
    requires op in l.ops && l.ops[op].phase.Writing?
    ensures var l' := Write(l, op, true);
            && l'.written == l.written + [l.ops[op].draft] && l'.next == l.next
            && l'.ops == l.ops[op := Op(l.ops[op].draft, Written(l.ops[op].phase.number))]
  {
    hide FileOf;
  }

  lemma LineKeepsOrder(l: Log, l': Log, op: OpId, queued: seq<Draft>, writers: seq<OpId>)
    requires QueueOrder(l, queued, writers) && op in l.ops && !l.ops[op].phase.Written? && l'.next == l.next
    requires l'.written == l.written + [l.ops[op].draft] && op in l'.ops && l'.ops == l.ops[op := l'.ops[op]]
    requires l'.ops[op].phase.Written? && l'.ops[op].draft == l.ops[op].draft
    requires forall o | o in l.ops && RunOf(l, o) == RunOf(l, op) && o != op :: op < o
    ensures QueueOrder(l', queued, writers + [op])
  {
    var n := |writers|;
    var all := writers + [op];
    forall i | 0 <= i < |all| ensures all[i] < l'.next && l'.written[i] == queued[all[i]] {
      if i < n { assert l'.written[i] == l.written[i]; }
    }
    forall i, k | 0 <= i < k < |all| && l'.written[i].runId == l'.written[k].runId ensures all[i] < all[k] {
      assert l'.written[i] == l.written[i];
      if k == n { assert RunOf(l, op) == l.written[i].runId; }
    }
    forall i, o | 0 <= i < |all| && o in l'.ops && RunOf(l', o) == l'.written[i].runId
      ensures all[i] < o || (all[i] == o && l'.ops[o].phase.Written?)
    {
      assert RunOf(l, o) == RunOf(l', o);
      if i < n { assert l'.written[i] == l.written[i]; }
    }
  }

  lemma OthersKeepOrder(l: Log, step: Step, queued: seq<Draft>, writers: seq<OpId>)
    requires QueueOrder(l, queued, writers) && Enabled(l, step) && !(step.WriteStep? && step.ok)
    ensures QueueOrder(Perform(l, step), queued + (if step.AppendStep? then [step.draft] else []), writers)
  {
    hide Lru.Get, Lru.Set, Lru.Delete, MaxSeq, FileOf, QueueOrder;
    match step
    case AppendStep(d) => EnqueueKeepsOrder(l, d, queued, writers);
    case CrashStep => FewerKeepOrder(l, Perform(l, step), queued, writers);
    case StartStep(op) => FewerKeepOrder(l, Perform(l, step), queued, writers);
    case ScanStep(op, _) => FewerKeepOrder(l, Perform(l, step), queued, writers);
    case WriteStep(op, _) => FewerKeepOrder(l, Perform(l, step), queued, writers);
    case FinishStep(op) => FewerKeepOrder(l, Perform(l, step), queued, writers);
  }

  lemma EnqueueKeepsOrder(l: Log, d: Draft, queued: seq<Draft>, writers: seq<OpId>)
    requires QueueOrder(l, queued, writers)
    ensures QueueOrder(Enqueue(l, d), queued + [d], writers)
  {
    var l' := Enqueue(l, d);
    assert forall o | o in l.ops :: o != l.next && l'.ops[o] == l.ops[o];
  }

  /** Operations move on or end, and nothing is written. */
  lemma FewerKeepOrder(l: Log, l': Log, queued: seq<Draft>, writers: seq<OpId>)
    requires QueueOrder(l, queued, writers) && l'.next == l.next && l'.written == l.written
    requires forall o | o in l'.ops :: o in l.ops && l'.ops[o].draft == l.ops[o].draft && (l.ops[o].phase.Written? ==> l'.ops[o].phase.Written?)
    ensures QueueOrder(l', queued + [], writers)
  {
    assert queued + [] == queued;
  }

  /**
   Over every run, with interleaving, failures and crashes: what is written are queued appends, and those
   of one run are written in the order in which they were queued, each at most once.
   */
  lemma {:induction false} WrittenInQueueOrder(capacity: nat, steps: seq<Step>)
    requires capacity >= 1
    ensures var l, writers, queued := Run(Begin(capacity), steps), Writers(capacity, steps), QueuedDrafts(steps);
            && |writers| == |l.written|
            && (forall i | 0 <= i < |writers| :: writers[i] < |queued| && l.written[i] == queued[writers[i]])
            && (forall i, k | 0 <= i < k < |writers| && l.written[i].runId == l.written[k].runId :: writers[i] < writers[k])
    ensures QueueOrder(Run(Begin(capacity), steps), QueuedDrafts(steps), Writers(capacity, steps))
  {
    if steps != [] {
      hide Perform, Enabled, Ok, Chained;
      var n := |steps| - 1;
      var l, last := Run(Begin(capacity), steps[..n]), steps[n];
      WrittenInQueueOrder(capacity, steps[..n]);
      RunOk(capacity, steps[..n]);
      StepKeepsOrder(l, last, QueuedDrafts(steps[..n]), Writers(capacity, steps[..n]));
    }
  }

  lemma StepKeepsOrder(l: Log, step: Step, queued: seq<Draft>, writers: seq<OpId>)
    requires Ok(l) && QueueOrder(l, queued, writers)
    ensures QueueOrder(Apply(l, step), queued + (if step.AppendStep? then [step.draft] else []),
              writers + (if step.WriteStep? && step.ok && Enabled(l, step) then [step.op] else []))
  {
    hide QueueOrder, Perform, Chained, FilesOk, CacheOk, MatchesMemory, OpOk;
    assert writers + [] == writers && queued + [] == queued;
    if Enabled(l, step) {
      if step.WriteStep? && step.ok {
        WriteKeepsOrder(l, step.op, queued, writers);
        WrittenStep(l, step.op);
      } else {
        OthersKeepOrder(l, step, queued, writers);
      }
    }
  }

  lemma WrittenStep(l: Log, op: OpId)
    requires Enabled(l, WriteStep(op, true))
    ensures Perform(l, WriteStep(op, true)) == Write(l, op, true)
  {
  }

  // ---------------------------------------------------------------- no append waits for ever

  /** What a queued operation waits for is an earlier operation of its own run, for as long as that one is there. */
  ghost predicate Links(l: Log) {
    forall o | o in l.ops && l.ops[o].phase.Queued? && l.ops[o].phase.previous.Some? ::
      var p := l.ops[o].phase.previous.value; p < o && (p in l.ops ==> RunOf(l, p) == RunOf(l, o))
  }

  /** Operations move on or end. */
  lemma FewerLinks(l: Log, l': Log)
    requires Links(l)
    requires forall o | o in l'.ops :: o in l.ops && l'.ops[o].draft == l.ops[o].draft && (l'.ops[o].phase.Queued? ==> l'.ops[o].phase == l.ops[o].phase)
    ensures Links(l')
  {
  }

  lemma EnqueueLinks(l: Log, d: Draft)
    requires Links(l) && Tailed(l)
    ensures Links(Enqueue(l, d))
  {
    var l' := Enqueue(l, d);
    assert forall o | o in l.ops :: o != l.next && l'.ops[o] == l.ops[o];
  }

  lemma PerformLinks(l: Log, step: Step)
    requires Links(l) && Chained(l) && Enabled(l, step)
    ensures Links(Perform(l, step))
  {
    hide Lru.Get, Lru.Set, Lru.Delete, MaxSeq, FileOf, Links;
    if step.AppendStep? { EnqueueLinks(l, step.draft); } else { FewerLinks(l, Perform(l, step)); }
  }

  lemma {:induction false} RunLinks(capacity: nat, steps: seq<Step>)
    requires capacity >= 1
    ensures Links(Run(Begin(capacity), steps))
  {
    if steps != [] {
      hide Perform, Enabled, Links, Chained, FilesOk, CacheOk, MatchesMemory, OpOk;
      var n := |steps| - 1;
      var l := Run(Begin(capacity), steps[..n]);
      RunLinks(capacity, steps[..n]);
      RunOk(capacity, steps[..n]);
      if Enabled(l, steps[n]) { PerformLinks(l, steps[n]); }
    }
  }

  /** The step moves the operation itself on, or ends it. */
  predicate Moves(step: Step, op: OpId) {
    match step
    case StartStep(o) => o == op
    case ScanStep(o, _) => o == op
    case WriteStep(o, _) => o == op
    case FinishStep(o) => o == op
    case _ => false
  }

  /**
   In every run, behind any failures and crashes, an append that has not settled has one at or before it
   in its run that can take its next step now.
   */
  lemma {:induction false} NeverStuck(capacity: nat, steps: seq<Step>, op: OpId) returns (first: OpId, step: Step)
    requires capacity >= 1 && op in Run(Begin(capacity), steps).ops
    ensures first <= op && SameRun(Run(Begin(capacity), steps), first, op)
    ensures Moves(step, first) && Enabled(Run(Begin(capacity), steps), step)
  {
    hide Run;
    var l := Run(Begin(capacity), steps);
    RunLinks(capacity, steps);
    first := op;
    match l.ops[op].phase
    case Queued(previous) =>
      step := StartStep(op);
      if !CanStart(l, op) { first, step := NeverStuck(capacity, steps, previous.value); }
    case Scanning => step := ScanStep(op, true);
    case Writing(_) => step := WriteStep(op, true);
    case Written(_) => step := FinishStep(op);
  }

  // ---------------------------------------------------------------- the log object

  /** The source's log: queue tails and an LRU cache around the files, one method for each block between awaits. */
  class JsonlLog {
    const nextSeqByRun: Lru.LruMap<RunId, nat>
    var files: map<RunId, seq<Event>>
    var appendQueues: map<RunId, OpId>
    var operations: map<OpId, Op>
    var nextOperation: OpId
    var written: seq<Draft>

    function State(): Log
      reads this, nextSeqByRun
    {
      Log(files, nextSeqByRun.entries, nextSeqByRun.maxSize, appendQueues, operations, nextOperation, written)
    }

    constructor (capacity: nat)
      requires capacity >= 1
      ensures State() == Begin(capacity) && nextSeqByRun.Valid()
    {
      nextSeqByRun := new Lru.LruMap<RunId, nat>(capacity);
      files, appendQueues, operations, nextOperation, written := map[], map[], map[], 0, [];
    }

    method AppendEvent(d: Draft) returns (op: OpId)
      modifies this
      ensures State() == Enqueue(old(State()), d) && op == old(nextOperation)
    {
      var previousTail := if d.runId in appendQueues then Some(appendQueues[d.runId]) else None;
      op := nextOperation;
      operations := operations[op := Op(d, Queued(previousTail))];
      appendQueues := appendQueues[d.runId := op];
      nextOperation := nextOperation + 1;
    }

    /** nextSeq up to its file scan: a cached number is reused. */
    method StartAppend(op: OpId)
      requires op in operations && nextSeqByRun.Valid()
      modifies this`operations, nextSeqByRun
      ensures State() == Start(old(State()), op) && nextSeqByRun.Valid()
    {
      hide Lru.Get;
      var cached := nextSeqByRun.Read(operations[op].draft.runId);
      operations := operations[op := operations[op].(phase := if cached.Some? then Writing(cached.value) else Scanning)];
    }

    /** The scan found the run's largest number, or reading failed. */
    method FinishScan(op: OpId, ok: bool)
      requires op in operations && nextSeqByRun.Valid()
      modifies this`operations, this`appendQueues, nextSeqByRun
      ensures State() == Scan(old(State()), op, ok) && nextSeqByRun.Valid()
    {
      hide Lru.Set;
      var run := operations[op].draft.runId;
      var max := MaxExistingSeq(if run in files then files[run] else [], run);
      if !ok || max == MAX_SAFE_INTEGER {
        Settle(op);
        return;
      }
      nextSeqByRun.Write(run, max + 1);
      operations := operations[op := operations[op].(phase := Writing(max + 1))];
    }

    method FinishWrite(op: OpId, ok: bool)
      requires op in operations && operations[op].phase.Writing?
      modifies this
      ensures State() == Write(old(State()), op, ok)
    {
      if !ok {
        Settle(op);
        return;
      }
      var d, number := operations[op].draft, operations[op].phase.number;
      files := files[d.runId := (if d.runId in files then files[d.runId] else []) + [Event(number, d.runId, d.data)]];
      written := written + [d];
      operations := operations[op := operations[op].(phase := Written(number))];
    }

    method FinishAppend(op: OpId)
      requires op in operations && operations[op].phase.Written? && nextSeqByRun.Valid()
      modifies this`operations, this`appendQueues, nextSeqByRun
      ensures State() == Finish(old(State()), op) && nextSeqByRun.Valid()
    {
      hide Lru.Set, Lru.Delete;
      var run, number := operations[op].draft.runId, operations[op].phase.number;
      if number == MAX_SAFE_INTEGER { nextSeqByRun.Remove(run); } else { nextSeqByRun.Write(run, number + 1); }
      Settle(op);
    }

    method Settle(op: OpId)
      requires op in operations
      modifies this`operations, this`appendQueues
      ensures State() == End(old(State()), op)
    {
      var run := operations[op].draft.runId;
      if run in appendQueues && appendQueues[run] == op { appendQueues := appendQueues - {run}; }
      operations := operations - {op};
    }
  }
}
