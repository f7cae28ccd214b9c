/**
 The view of one run, folded from its events in the order of their sequence numbers. The view is the
 same for every arrangement of the events, and each of its parts is that of one particular event.
 */
module RunView {
  import opened Common

  datatype Body =
    | MessageReceived(message: string)
    | RunStarted(trigger: Option<string>, cause: Option<string>)
    | RunCompleted(output: string)
    | RunFailed(error: string)
    | RunCancelled(reason: string)
    | CallCreated(callId: string, taskId: string, skillId: string, mode: string, callState: string)
    | CallChanged(callId: string, taskId: string, callState: string)
    | ReplySent(conversationId: string, text: string)
    | ReplyFailed(conversationId: string, text: string, error: string)

  datatype Event = Event(seqNo: int, runId: string, sessionId: string, timestamp: string, body: Body)

  datatype Status = Pending | Running | Completed | Failed | Cancelled

  datatype CallView = CallView(callId: string, taskId: string, skillId: string, mode: string, state: string, createdAt: string, updatedAt: string)

  datatype Reply = NotSent | Sent(conversationId: string, text: string, sentAt: string)
                 | Undelivered(conversationId: string, text: string, error: string, failedAt: string)

  /** The local variables of the loop. */
  datatype Folded = Folded(status: Status, trigger: Option<string>, cause: Option<string>, input: Option<string>,
    output: Option<string>, error: Option<string>, endedAt: Option<string>, reply: Reply,
    calls: map<string, CallView>, callOrder: seq<string>)

  datatype View = View(runId: string, sessionId: string, status: Status, trigger: Option<string>, cause: Option<string>,
    startedAt: string, endedAt: Option<string>, eventCount: nat, lastSeq: int, input: Option<string>,
    output: Option<string>, error: Option<string>, agentCalls: seq<CallView>, reply: Reply)

  const EMPTY := Folded(Pending, None, None, None, None, None, None, NotSent, map[], [])

  function Created(f: Folded, body: Body, timestamp: string): Folded
    requires body.CallCreated?
  {
    var id := body.callId;
    if id !in f.calls then
      f.(calls := f.calls[id := CallView(id, body.taskId, body.skillId, body.mode, body.callState, timestamp, timestamp)],
         callOrder := f.callOrder + [id])
    else
      f.(calls := f.calls[id := f.calls[id].(taskId := body.taskId, skillId := body.skillId, mode := body.mode,
                                             state := body.callState, updatedAt := timestamp)])
  }

  function Changed(f: Folded, body: Body, timestamp: string): Folded
    requires body.CallChanged?
  {
    var id := body.callId;
    if id !in f.calls then f
    else f.(calls := f.calls[id := f.calls[id].(taskId := body.taskId, state := body.callState, updatedAt := timestamp)])
  }

  function Step(f: Folded, e: Event): Folded {
    match e.body
    case MessageReceived(message) => f.(input := Some(message))
    case RunStarted(trigger, cause) =>
      if f.status == Pending || f.status == Running then f.(status := Running, trigger := trigger, cause := cause) else f
    case RunCompleted(output) => f.(status := Completed, output := Some(output), error := None, endedAt := Some(e.timestamp))
    case RunFailed(error) => f.(status := Failed, output := None, error := Some(error), endedAt := Some(e.timestamp))
    case RunCancelled(reason) => f.(status := Cancelled, output := None, error := Some(reason), endedAt := Some(e.timestamp))
    case CallCreated(_, _, _, _, _) => Created(f, e.body, e.timestamp)
    case CallChanged(_, _, _) => Changed(f, e.body, e.timestamp)
    case ReplySent(conversationId, text) => f.(reply := Sent(conversationId, text, e.timestamp))
    case ReplyFailed(conversationId, text, error) => f.(reply := Undelivered(conversationId, text, error, e.timestamp))
  }

  function Fold(es: seq<Event>): Folded {
    if es == [] then EMPTY else Step(Fold(es[..|es| - 1]), es[|es| - 1])
  }

  // ---------------------------------------------------------------- the stable sort

  predicate InOrder(es: seq<Event>) {
    forall i, j | 0 <= i < j < |es| :: es[i].seqNo <= es[j].seqNo
  }

  /** After everything that is not greater. */
  function Insert(es: seq<Event>, e: Event): seq<Event> {
    if es == [] || es[|es| - 1].seqNo <= e.seqNo then es + [e] else Insert(es[..|es| - 1], e) + [es[|es| - 1]]
  }

  function Sort(es: seq<Event>): seq<Event> {
    if es == [] then [] else Insert(Sort(es[..|es| - 1]), es[|es| - 1])
  }

  lemma {:induction false} InsertKeepsAll(es: seq<Event>, e: Event)
    ensures multiset(Insert(es, e)) == multiset(es) + multiset{e}
    ensures forall x :: x in Insert(es, e) <==> x in es || x == e
  {
    if es != [] && es[|es| - 1].seqNo > e.seqNo {
      InsertKeepsAll(es[..|es| - 1], e);
      assert es == es[..|es| - 1] + [es[|es| - 1]];
    }
  }

  lemma {:induction false} InsertSorts(es: seq<Event>, e: Event)
    requires InOrder(es)
    ensures InOrder(Insert(es, e))
  {
    if es != [] && es[|es| - 1].seqNo > e.seqNo {
      var n := |es| - 1;
      InsertSorts(es[..n], e);
      InsertKeepsAll(es[..n], e);
      forall x | x in Insert(es[..n], e) ensures x.seqNo <= es[n].seqNo { assert x in es[..n] || x == e; }
      AppendGreatest(Insert(es[..n], e), es[n]);
    }
  }

  lemma AppendGreatest(es: seq<Event>, e: Event)
    requires InOrder(es) && forall x | x in es :: x.seqNo <= e.seqNo
    ensures InOrder(es + [e])
  {
    assert forall i | 0 <= i < |es| :: es[i] in es;
  }

  lemma {:induction false} SortSorts(es: seq<Event>)
    ensures InOrder(Sort(es)) && multiset(Sort(es)) == multiset(es)
  {
    if es != [] {
      var n := |es| - 1;
      SortSorts(es[..n]);
      InsertSorts(Sort(es[..n]), es[n]);
      InsertKeepsAll(Sort(es[..n]), es[n]);
      assert es == es[..n] + [es[n]];
    }
  }

  /** No two events of a run share a sequence number. */
  predicate Distinct(es: seq<Event>) {
    forall i, j | 0 <= i < j < |es| :: es[i].seqNo != es[j].seqNo
  }

  /** The same events, each as often. */
  predicate Rearranged(a: seq<Event>, b: seq<Event>) {
    multiset(a) == multiset(b)
  }

  lemma {:induction false} DistinctOnce(es: seq<Event>)
    requires Distinct(es)
    ensures forall e :: multiset(es)[e] <= 1
    ensures SeqDecides(multiset(es))
  {
    if es != [] {
      var n := |es| - 1;
      DistinctOnce(es[..n]);
      assert es == es[..n] + [es[n]];
      forall a | a in multiset(es[..n]) ensures a.seqNo != es[n].seqNo { assert a in es[..n]; }
    }
  }

  predicate SeqDecides(all: multiset<Event>) {
    forall x, y | x in all && y in all && x.seqNo == y.seqNo :: x == y
  }

  lemma {:induction false} OneOrder(a: seq<Event>, b: seq<Event>)
    requires InOrder(a) && InOrder(b) && multiset(a) == multiset(b) && SeqDecides(multiset(a))
    ensures a == b
  {
    hide InOrder, SeqDecides;
    SameLength(a, b);
    if a != [] {
      var n := |a| - 1;
      assert a[n] == b[n] by { SameGreatest(a, b); }
      WithoutLast(a);
      WithoutLast(b);
      OneOrder(a[..n], b[..n]);
      assert a == a[..n] + [a[n]] && b == b[..n] + [b[n]];
    }
  }

  lemma WithoutLast(a: seq<Event>)
    requires a != [] && InOrder(a)
    ensures InOrder(a[..|a| - 1]) && multiset(a[..|a| - 1]) == multiset(a) - multiset{a[|a| - 1]}
    ensures SeqDecides(multiset(a)) ==> SeqDecides(multiset(a[..|a| - 1]))
  {
    assert a == a[..|a| - 1] + [a[|a| - 1]];
  }

  lemma SameGreatest(a: seq<Event>, b: seq<Event>)
    requires InOrder(a) && InOrder(b) && multiset(a) == multiset(b) && SeqDecides(multiset(a)) && a != [] && |a| == |b|
    ensures a[|a| - 1] == b[|b| - 1]
  {
    var n := |a| - 1;
    assert a[n] in multiset(b) && b[n] in multiset(a);
    var i :| 0 <= i <= n && b[i] == a[n];
    var j :| 0 <= j <= n && a[j] == b[n];
  }

  // ---------------------------------------------------------------- the view

  function ViewOf(es: seq<Event>): Option<View> {
    if es == [] then None
    else
      SortSorts(es);
      SameLength(es, Sort(es));
      var ordered := Sort(es);
      var f := Fold(ordered);
      OrderKnown(ordered);
      Some(View(ordered[0].runId, ordered[0].sessionId, f.status, f.trigger, f.cause, ordered[0].timestamp, f.endedAt,
        |ordered|, ordered[|ordered| - 1].seqNo, f.input, f.output, f.error,
        seq(|f.callOrder|, i requires 0 <= i < |f.callOrder| => f.calls[f.callOrder[i]]), f.reply))
  }

  lemma SameMembers(a: seq<Event>, b: seq<Event>)
    requires multiset(a) == multiset(b)
    ensures forall e :: e in a <==> e in b
  {
    assert forall e :: e in a <==> e in multiset(a);
    assert forall e :: e in b <==> e in multiset(b);
  }

  lemma SameLength(a: seq<Event>, b: seq<Event>)
    requires multiset(a) == multiset(b)
    ensures |a| == |b|
  {
    assert |a| == |multiset(a)| && |b| == |multiset(b)|;
  }

  lemma {:induction false} OrderKnown(es: seq<Event>)
    ensures forall i | 0 <= i < |Fold(es).callOrder| :: Fold(es).callOrder[i] in Fold(es).calls
    ensures forall id | id in Fold(es).calls :: id in Fold(es).callOrder
    ensures forall i, j | 0 <= i < j < |Fold(es).callOrder| :: Fold(es).callOrder[i] != Fold(es).callOrder[j]
  {
    if es != [] { OrderKnown(es[..|es| - 1]); }
  }

  lemma ViewOfNone()
    ensures ViewOf([]) == None
  { }

  lemma FoldNone()
    ensures Fold([]) == EMPTY
  { }

  lemma FoldNext(es: seq<Event>, i: nat)
    requires i < |es|
    ensures Fold(es[..i + 1]) == Step(Fold(es[..i]), es[i])
  {
    assert es[..i + 1][..i] == es[..i];
  }

  lemma ViewOfSome(es: seq<Event>, ordered: seq<Event>, agentCalls: seq<CallView>)
    requires es != [] && ordered == Sort(es) && ordered != [] && |agentCalls| == |Fold(ordered).callOrder|
    requires forall i | 0 <= i < |agentCalls| :: Fold(ordered).callOrder[i] in Fold(ordered).calls && agentCalls[i] == Fold(ordered).calls[Fold(ordered).callOrder[i]]
    ensures var f := Fold(ordered);
      ViewOf(es) == Some(View(ordered[0].runId, ordered[0].sessionId, f.status, f.trigger, f.cause, ordered[0].timestamp, f.endedAt,
        |ordered|, ordered[|ordered| - 1].seqNo, f.input, f.output, f.error, agentCalls, f.reply))
  {
    hide Fold, Sort;
    SortSorts(es);
    OrderKnown(ordered);
    assert ViewOf(es).value.agentCalls == agentCalls;
  }

  /** The loop of the source over the sorted events, one local variable for each part of the view. */
  method CreateRunView(events: seq<Event>) returns (view: Option<View>)
    ensures view == ViewOf(events)
  {
    hide Fold, ViewOf, Sort;
    if |events| == 0 {
      ViewOfNone();
      return None;
    }
    var ordered := Sort(events);
    SortSorts(events);
    SameLength(events, ordered);
    FoldNone();
    var status, trigger: Option<string>, cause: Option<string>, input: Option<string> := Pending, None, None, None;
    var output: Option<string>, error: Option<string>, endedAt: Option<string> := None, None, None;
    var reply := NotSent;
    var calls: map<string, CallView> := map[];
    var callOrder: seq<string> := [];
    for i := 0 to |ordered|
      invariant Fold(ordered[..i]) == Folded(status, trigger, cause, input, output, error, endedAt, reply, calls, callOrder)
    {
      var event := ordered[i];
      FoldNext(ordered, i);
      match event.body
      case MessageReceived(message) => input := Some(message);
      case RunStarted(t, c) => if status == Pending || status == Running { status, trigger, cause := Running, t, c; }
      case RunCompleted(o) => status, output, error, endedAt := Completed, Some(o), None, Some(event.timestamp);
      case RunFailed(e) => status, output, error, endedAt := Failed, None, Some(e), Some(event.timestamp);
      case RunCancelled(reason) => status, output, error, endedAt := Cancelled, None, Some(reason), Some(event.timestamp);
      case CallCreated(id, taskId, skillId, mode, state) =>
        if id !in calls {
          calls := calls[id := CallView(id, taskId, skillId, mode, state, event.timestamp, event.timestamp)];
          callOrder := callOrder + [id];
        } else {
          calls := calls[id := calls[id].(taskId := taskId, skillId := skillId, mode := mode, state := state, updatedAt := event.timestamp)];
        }
      case CallChanged(id, taskId, state) =>
        if id in calls { calls := calls[id := calls[id].(taskId := taskId, state := state, updatedAt := event.timestamp)]; }
      case ReplySent(conversationId, text) => reply := Sent(conversationId, text, event.timestamp);
      case ReplyFailed(conversationId, text, e) => reply := Undelivered(conversationId, text, e, event.timestamp);
    }
    assert ordered[..|ordered|] == ordered;
    OrderKnown(ordered);
    var agentCalls := seq(|callOrder|, i requires 0 <= i < |callOrder| => calls[callOrder[i]]);
    ViewOfSome(events, ordered, agentCalls);
    view := Some(View(ordered[0].runId, ordered[0].sessionId, status, trigger, cause, ordered[0].timestamp, endedAt,
      |ordered|, ordered[|ordered| - 1].seqNo, input, output, error, agentCalls, reply));
  }

  /** The order in which the events are given does not matter. */
  lemma ViewIgnoresArrangement(a: seq<Event>, b: seq<Event>)
    requires Rearranged(a, b) && Distinct(a)
    ensures ViewOf(a) == ViewOf(b)
  {
    SortSorts(a);
    SortSorts(b);
    DistinctOnce(a);
    OneOrder(Sort(a), Sort(b));
    SameLength(a, b);
  }

  // ---------------------------------------------------------------- what each part of the view says

  predicate IsTerminal(b: Body) {
    b.RunCompleted? || b.RunFailed? || b.RunCancelled?
  }

  predicate IsReply(b: Body) {
    b.ReplySent? || b.ReplyFailed?
  }

  /** `e` is the event of its kind with the greatest sequence number. */
  ghost predicate Latest(es: seq<Event>, e: Event, kind: Body -> bool) {
    e in es && kind(e.body) && forall f | f in es && kind(f.body) :: f.seqNo <= e.seqNo
  }

  ghost predicate LastAt(es: seq<Event>, k: nat, kind: Body -> bool) {
    k < |es| && kind(es[k].body) && forall j | k < j < |es| :: !kind(es[j].body)
  }

  lemma LatestIsLast(es: seq<Event>, e: Event, kind: Body -> bool) returns (k: nat)
    requires Distinct(es) && Latest(es, e, kind)
    ensures LastAt(Sort(es), k, kind) && Sort(es)[k] == e
  {
    SortSorts(es);
    DistinctOnce(es);
    var s := Sort(es);
    assert e in multiset(s);
    k :| 0 <= k < |s| && s[k] == e;
    forall j | k < j < |s| ensures !kind(s[j].body) {
      if kind(s[j].body) {
        assert s[j] in multiset(es) && s[j] in es;
        assert s[j] == s[k];
        assert multiset(s)[s[j]] >= 2 by { TwiceIn(s, k, j); }
      }
    }
  }

  lemma TwiceIn(s: seq<Event>, k: nat, j: nat)
    requires k < j < |s| && s[k] == s[j]
    ensures multiset(s)[s[j]] >= 2
  {
    assert s == s[..j] + s[j..];
    assert s[k] in s[..j] && s[j] in s[j..];
    assert multiset(s) == multiset(s[..j]) + multiset(s[j..]);
  }

  function StatusOf(b: Body): Status
    requires IsTerminal(b)
  {
    if b.RunCompleted? then Completed else if b.RunFailed? then Failed else Cancelled
  }

  lemma {:induction false} FoldTerminal(es: seq<Event>, k: nat)
    requires LastAt(es, k, IsTerminal)
    ensures Fold(es).status == StatusOf(es[k].body) && Fold(es).endedAt == Some(es[k].timestamp)
    ensures Fold(es).output == if es[k].body.RunCompleted? then Some(es[k].body.output) else None
    ensures Fold(es).error == match es[k].body case RunFailed(e) => Some(e) case RunCancelled(r) => Some(r) case _ => None
  {
    var n := |es| - 1;
    if k < n { FoldTerminal(es[..n], k); }
  }

  lemma AnyStarted(es: seq<Event>)
    requires es != []
    ensures (exists e :: e in es && e.body.RunStarted?) <==>
            (exists e :: e in es[..|es| - 1] && e.body.RunStarted?) || es[|es| - 1].body.RunStarted?
  {
    assert es[|es| - 1] in es;
    assert forall e | e in es[..|es| - 1] :: e in es;
    assert forall e | e in es :: e in es[..|es| - 1] || e == es[|es| - 1];
  }

  lemma {:induction false} FoldUnended(es: seq<Event>)
    requires forall e | e in es :: !IsTerminal(e.body)
    ensures Fold(es).status == if exists e :: e in es && e.body.RunStarted? then Running else Pending
    ensures Fold(es).endedAt == None && Fold(es).output == None && Fold(es).error == None
  {
    if es != [] {
      var n := |es| - 1;
      FoldUnended(es[..n]);
      AnyStarted(es);
      assert es[n] in es;
    }
  }

  /** A terminal event decides status, output, error and end; the latest one wins. */
  lemma LastTerminalDecides(es: seq<Event>, e: Event)
    requires Distinct(es) && Latest(es, e, IsTerminal)
    ensures ViewOf(es).Some? && ViewOf(es).value.status == StatusOf(e.body) && ViewOf(es).value.endedAt == Some(e.timestamp)
    ensures ViewOf(es).value.output == if e.body.RunCompleted? then Some(e.body.output) else None
    ensures ViewOf(es).value.error == match e.body case RunFailed(x) => Some(x) case RunCancelled(x) => Some(x) case _ => None
  {
    var k := LatestIsLast(es, e, IsTerminal);
    FoldTerminal(Sort(es), k);
  }

  /** Without a terminal event the run is running exactly when it was started. */
  lemma UnendedRuns(es: seq<Event>)
    requires es != [] && forall e | e in es :: !IsTerminal(e.body)
    ensures ViewOf(es).value.status == if exists e :: e in es && e.body.RunStarted? then Running else Pending
    ensures ViewOf(es).value.endedAt == None && ViewOf(es).value.output == None && ViewOf(es).value.error == None
  {
    SortSorts(es);
    SameMembers(es, Sort(es));
    FoldUnended(Sort(es));
  }

  lemma {:induction false} FoldReply(es: seq<Event>, k: nat)
    requires LastAt(es, k, IsReply)
    ensures Fold(es).reply == match es[k].body
      case ReplySent(c, t) => Sent(c, t, es[k].timestamp)
      case ReplyFailed(c, t, x) => Undelivered(c, t, x, es[k].timestamp)
      case _ => NotSent
  {
    var n := |es| - 1;
    if k < n { FoldReply(es[..n], k); }
  }

  lemma LastReplyShows(es: seq<Event>, e: Event)
    requires Distinct(es) && Latest(es, e, IsReply)
    ensures ViewOf(es).Some?
    ensures ViewOf(es).value.reply == match e.body
      case ReplySent(c, t) => Sent(c, t, e.timestamp)
      case ReplyFailed(c, t, x) => Undelivered(c, t, x, e.timestamp)
      case _ => NotSent
  {
    var k := LatestIsLast(es, e, IsReply);
    FoldReply(Sort(es), k);
  }

  // ---------------------------------------------------------------- agent calls

  predicate Creates(e: Event, id: string) {
    e.body.CallCreated? && e.body.callId == id
  }

  predicate Names(b: Body, id: string) {
    (b.CallCreated? || b.CallChanged?) && b.callId == id
  }

  predicate Touches(e: Event, id: string) {
    Names(e.body, id)
  }

  /** The first event that creates the call. */
  ghost predicate FirstAt(es: seq<Event>, k: nat, id: string) {
    k < |es| && Creates(es[k], id) && forall j | 0 <= j < k :: !Creates(es[j], id)
  }

  ghost predicate IsCreated(es: seq<Event>, id: string) {
    exists k: nat :: FirstAt(es, k, id)
  }

  lemma {:induction false} CallsAreTheCreated(es: seq<Event>)
    ensures forall id :: id in Fold(es).calls <==> IsCreated(es, id)
  {
    if es != [] {
      var n := |es| - 1;
      CallsAreTheCreated(es[..n]);
      forall id ensures id in Fold(es).calls <==> IsCreated(es, id) {
        FirstAppended(es, id);
      }
    }
  }

  lemma FirstAppended(es: seq<Event>, id: string)
    requires es != []
    ensures IsCreated(es, id) <==> IsCreated(es[..|es| - 1], id) || Creates(es[|es| - 1], id)
  {
    var n := |es| - 1;
    if k: nat :| FirstAt(es, k, id) {
      if k < n { assert FirstAt(es[..n], k, id); }
    }
    if k: nat :| FirstAt(es[..n], k, id) {
      assert FirstAt(es, k, id);
    } else if Creates(es[n], id) {
      var k := FirstCreated(es, id, n);
    }
  }

  lemma {:induction false} FirstCreated(es: seq<Event>, id: string, j: nat) returns (k: nat)
    requires j < |es| && Creates(es[j], id)
    ensures FirstAt(es, k, id)
  {
    k := 0;
    while !Creates(es[k], id)
      invariant k <= j && forall i | 0 <= i < k :: !Creates(es[i], id)
      decreases j - k
    {
      k := k + 1;
    }
  }

  /** Calls are listed in the order in which they were first created. */
  lemma {:induction false} ListedByFirstCreation(es: seq<Event>, i: nat, j: nat, k: nat, m: nat)
    requires i < j < |Fold(es).callOrder| && FirstAt(es, k, Fold(es).callOrder[i]) && FirstAt(es, m, Fold(es).callOrder[j])
    ensures k < m
  {
    var n := |es| - 1;
    var before := Fold(es[..n]);
    CallsAreTheCreated(es[..n]);
    OrderKnown(es[..n]);
    if j < |before.callOrder| {
      var a, b := before.callOrder[i], before.callOrder[j];
      FirstStays(es, k, a);
      FirstStays(es, m, b);
      ListedByFirstCreation(es[..n], i, j, k, m);
    } else {
      FirstStays(es, k, before.callOrder[i]);
      assert m == n by { if m < n { assert FirstAt(es[..n], m, Fold(es).callOrder[j]); } }
    }
  }

  lemma FirstStays(es: seq<Event>, k: nat, id: string)
    requires es != [] && FirstAt(es, k, id) && IsCreated(es[..|es| - 1], id)
    ensures FirstAt(es[..|es| - 1], k, id)
  {
    var m: nat :| FirstAt(es[..|es| - 1], m, id);
    assert Creates(es[m], id);
  }

  /** The view of a call: created with the first creation, and as the last event that touched it left it. */
  lemma StepCall(f: Folded, e: Event, id: string)
    ensures !Touches(e, id) ==> ((id in Step(f, e).calls) <==> (id in f.calls))
    ensures !Touches(e, id) && id in f.calls ==> Step(f, e).calls[id] == f.calls[id]
    ensures Touches(e, id) && (id in f.calls || Creates(e, id)) ==>
      && id in Step(f, e).calls && Step(f, e).calls[id].updatedAt == e.timestamp
      && Step(f, e).calls[id].state == e.body.callState && Step(f, e).calls[id].taskId == e.body.taskId
      && Step(f, e).calls[id].createdAt == if id in f.calls then f.calls[id].createdAt else e.timestamp
  { }

  lemma NoneBeforeFirst(es: seq<Event>, k: nat, id: string)
    requires FirstAt(es, k, id)
    ensures !IsCreated(es[..k], id)
  {
    assert forall p: nat :: p < k ==> !Creates(es[..k][p], id);
  }

  /** The view of a call: created with the first creation, and as the last event that touched it left it. */
  lemma {:induction false} CallFollowsItsEvents(es: seq<Event>, id: string, k: nat, m: nat)
    requires FirstAt(es, k, id) && k <= m < |es| && Touches(es[m], id)
    requires forall j | m < j < |es| :: !Touches(es[j], id)
    ensures id in Fold(es).calls
    ensures Fold(es).calls[id].createdAt == es[k].timestamp && Fold(es).calls[id].updatedAt == es[m].timestamp
    ensures Fold(es).calls[id].state == es[m].body.callState && Fold(es).calls[id].taskId == es[m].body.taskId
  {
    hide Step;
    var n := |es| - 1;
    CallsAreTheCreated(es[..n]);
    StepCall(Fold(es[..n]), es[n], id);
    if k < n {
      assert FirstAt(es[..n], k, id);
      var m' := LastTouch(es[..n], id, k);
      CallFollowsItsEvents(es[..n], id, k, m');
    } else {
      NoneBeforeFirst(es, k, id);
    }
  }

  lemma LastTouch(es: seq<Event>, id: string, k: nat) returns (m: nat)
    requires k < |es| && Touches(es[k], id)
    ensures k <= m < |es| && Touches(es[m], id) && forall j | m < j < |es| :: !Touches(es[j], id)
  {
    m := |es| - 1;
    while !Touches(es[m], id)
      invariant k <= m < |es| && forall j | m < j < |es| :: !Touches(es[j], id)
      decreases m
    {
      m := m - 1;
    }
  }

  /** The first creation of a call in the order of sequence numbers. */
  ghost predicate Earliest(es: seq<Event>, e: Event, id: string) {
    e in es && Creates(e, id) && forall f | f in es && Creates(f, id) :: e.seqNo <= f.seqNo
  }

  lemma EarliestIsFirst(es: seq<Event>, e: Event, id: string) returns (k: nat)
    requires Distinct(es) && Earliest(es, e, id)
    ensures FirstAt(Sort(es), k, id) && Sort(es)[k] == e
  {
    hide Sort;
    var s := Sort(es);
    SortSorts(es);
    SameMembers(es, s);
    DistinctOnce(es);
    var j :| 0 <= j < |s| && s[j] == e;
    k := FirstCreated(s, id, j);
    assert s[k] in es && e.seqNo <= s[k].seqNo;
    assert k <= j;
    assert s[k] in multiset(es) && e in multiset(es);
  }

  lemma {:induction false} NamedByKey(es: seq<Event>)
    ensures forall id | id in Fold(es).calls :: Fold(es).calls[id].callId == id
  {
    if es != [] { NamedByKey(es[..|es| - 1]); }
  }

  /** The i-th call of the view is the i-th of the order, under its own id. */
  lemma ListedCalls(es: seq<Event>)
    requires es != []
    ensures |ViewOf(es).value.agentCalls| == |Fold(Sort(es)).callOrder|
    ensures forall i | 0 <= i < |Fold(Sort(es)).callOrder| ::
      && Fold(Sort(es)).callOrder[i] in Fold(Sort(es)).calls
      && ViewOf(es).value.agentCalls[i] == Fold(Sort(es)).calls[Fold(Sort(es)).callOrder[i]]
      && ViewOf(es).value.agentCalls[i].callId == Fold(Sort(es)).callOrder[i]
  {
    hide Fold, Sort;
    SortSorts(es);
    SameLength(es, Sort(es));
    OrderKnown(Sort(es));
    NamedByKey(Sort(es));
  }

  /** A call that was created is listed, from its first creation to the last event about it. */
  lemma CallIsShown(es: seq<Event>, id: string, first: Event, last: Event) returns (i: nat)
    requires Distinct(es) && Earliest(es, first, id) && Latest(es, last, (b: Body) => Names(b, id))
    ensures ViewOf(es).Some? && i < |ViewOf(es).value.agentCalls|
    ensures var call := ViewOf(es).value.agentCalls[i];
      && call.callId == id && call.createdAt == first.timestamp && call.updatedAt == last.timestamp
      && call.state == last.body.callState && call.taskId == last.body.taskId
  {
    hide Fold, Sort;
    var s := Sort(es);
    var k := EarliestIsFirst(es, first, id);
    var m := LatestIsLast(es, last, (b: Body) => Names(b, id));
    assert k <= m by { assert Names(s[k].body, id); }
    CallFollowsItsEvents(s, id, k, m);
    OrderKnown(s);
    ListedCalls(es);
    i :| 0 <= i < |Fold(s).callOrder| && Fold(s).callOrder[i] == id;
  }

  /** What is listed was created, and earlier in the list means first created earlier, so nothing is listed twice. */
  lemma ListedInOrderOfCreation(es: seq<Event>, i: nat, j: nat, first: Event, second: Event)
    requires Distinct(es) && es != [] && i < j < |ViewOf(es).value.agentCalls|
    requires Earliest(es, first, ViewOf(es).value.agentCalls[i].callId) && Earliest(es, second, ViewOf(es).value.agentCalls[j].callId)
    ensures first.seqNo < second.seqNo
  {
    hide Fold, Sort;
    var s := Sort(es);
    ListedCalls(es);
    var k := EarliestIsFirst(es, first, Fold(s).callOrder[i]);
    var m := EarliestIsFirst(es, second, Fold(s).callOrder[j]);
    ListedByFirstCreation(s, i, j, k, m);
    SortSorts(es);
    DistinctAt(es, k, m);
  }

  lemma DistinctAt(es: seq<Event>, k: nat, m: nat)
    requires Distinct(es) && k < m < |Sort(es)|
    ensures Sort(es)[k].seqNo < Sort(es)[m].seqNo
  {
    hide Sort;
    var s := Sort(es);
    SortSorts(es);
    DistinctOnce(es);
    if s[k].seqNo == s[m].seqNo {
      assert s[k] in multiset(es) && s[m] in multiset(es);
      TwiceIn(s, k, m);
      assert false;
    }
  }

  /** A call is listed exactly when some event creates it. */
  lemma ListedWhenCreated(es: seq<Event>, id: string)
    requires es != []
    ensures (exists e :: e in es && Creates(e, id)) <==>
            (exists i :: 0 <= i < |ViewOf(es).value.agentCalls| && ViewOf(es).value.agentCalls[i].callId == id)
  {
    hide Fold, Sort;
    var s := Sort(es);
    SortSorts(es);
    SameMembers(es, s);
    CreatedAreListed(s, id);
    ListedCalls(es);
    if id in Fold(s).callOrder {
      var i :| 0 <= i < |Fold(s).callOrder| && Fold(s).callOrder[i] == id;
      assert ViewOf(es).value.agentCalls[i].callId == id;
    }
  }

  lemma CreatedAreListed(s: seq<Event>, id: string)
    ensures (exists e :: e in s && Creates(e, id)) <==> id in Fold(s).callOrder
  {
    hide Fold;
    OrderKnown(s);
    CallsAreTheCreated(s);
    if e :| e in s && Creates(e, id) {
      var j :| 0 <= j < |s| && s[j] == e;
      var k := FirstCreated(s, id, j);
    }
    if k: nat :| FirstAt(s, k, id) {
      assert s[k] in s;
    }
  }
}
