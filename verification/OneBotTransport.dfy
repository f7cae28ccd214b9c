/**
 The forward WebSocket transport: one current socket, connection attempts and their failure
 handlers, a reconnect timer, and the actions that wait for an answer. Every function is one block of
 the source or one event of a socket; which event comes next is not known.
 */
module OneBotTransport {
  import opened Common

  type AttemptId = nat
  type CallId = nat

  /** The reconnect delays; the constructor refuses an empty list. */
  type Delays = d: seq<nat> | 0 < |d| witness [0]

  datatype Ready = Connecting | Open | Closing | Closed

  datatype Outcome = Pending | Resolved | Rejected | Handled

  /** One connection attempt and its socket; `Rejected` waits for its failure handler. */
  datatype Attempt = Attempt(initial: bool, ready: Ready, wasOpen: bool, outcome: Outcome)

  datatype Action = Action(call: CallId, socket: AttemptId, dispatched: bool)

  datatype Call = Call(echo: string, handed: bool)

  datatype Cause = AtOnce | Answer | SendError | Expiry | Disconnect | Shutdown

  datatype Verdict = Success | RemoteFailure | Uncertain | Unavailable | EchoTaken

  datatype Settlement = Settlement(call: CallId, cause: Cause, verdict: Verdict)

  datatype Transport = Transport(
    delays: Delays, running: bool, closing: bool, startOperation: Option<AttemptId>,
    socket: Option<AttemptId>, timer: Option<nat>, reconnectAttempt: nat, attempts: seq<Attempt>,
    pending: map<string, Action>, calls: seq<Call>, settled: seq<Settlement>)

  function Initial(delays: Delays): Transport {
    Transport(delays, false, false, None, None, None, 0, [], map[], [], [])
  }

  predicate Known(t: Transport, a: AttemptId) {
    a < |t.attempts|
  }

  function WithAttempt(t: Transport, a: AttemptId, attempt: Attempt): Transport
    requires Known(t, a)
  {
    t.(attempts := t.attempts[a := attempt])
  }

  // ---------------------------------------------------------------- actions

  function Forget(t: Transport, echo: string, cause: Cause, verdict: Verdict): Transport
    requires echo in t.pending
  {
    t.(pending := t.pending - {echo}, settled := t.settled + [Settlement(t.pending[echo].call, cause, verdict)])
  }

  function Reject(t: Transport, echo: string, cause: Cause, verdict: Verdict): Transport {
    if echo in t.pending then Forget(t, echo, cause, verdict) else t
  }

  /** An action that was handed to the socket may have been carried out. */
  function PendingFailure(t: Transport, echo: string): Verdict {
    if echo in t.pending && t.pending[echo].dispatched then Uncertain else Unavailable
  }

  function RejectEach(t: Transport, order: seq<string>): (r: Transport)
    decreases |order|
  {
    if order == [] then t
    else
      var before := RejectEach(t, order[..|order| - 1]);
      var echo := order[|order| - 1];
      Reject(before, echo, Shutdown, PendingFailure(before, echo))
  }

  function RejectEachOf(t: Transport, a: AttemptId, order: seq<string>): (r: Transport)
    decreases |order|
  {
    if order == [] then t
    else
      var before := RejectEachOf(t, a, order[..|order| - 1]);
      var echo := order[|order| - 1];
      if echo in before.pending && before.pending[echo].socket == a then Reject(before, echo, Disconnect, PendingFailure(before, echo))
      else before
  }

  datatype Sending = Sent | Threw | FailedAtOnce

  function SettleAtOnce(t: Transport, echo: string, verdict: Verdict): Transport {
    t.(calls := t.calls + [Call(echo, false)], settled := t.settled + [Settlement(|t.calls|, AtOnce, verdict)])
  }

  predicate CanSend(t: Transport) {
    t.running && !t.closing && t.socket.Some? && Known(t, t.socket.value) && t.attempts[t.socket.value].ready == Open
  }

  /** `sending` is what `socket.send` does: take the payload, throw, or report a failure before it returns. */
  function SendAction(t: Transport, echo: string, sending: Sending): Transport {
    if !CanSend(t) then SettleAtOnce(t, echo, Unavailable)
    else if echo in t.pending then SettleAtOnce(t, echo, EchoTaken)
    else
      var waiting := t.(calls := t.calls + [Call(echo, sending != Threw)],
                        pending := t.pending[echo := Action(|t.calls|, t.socket.value, false)]);
      match sending
      case Sent => waiting.(pending := waiting.pending[echo := waiting.pending[echo].(dispatched := true)])
      case Threw => Reject(waiting, echo, AtOnce, Unavailable)
      case FailedAtOnce => Reject(waiting, echo, SendError, Uncertain)
  }

  datatype Response = Accepted | AcceptedAsynchronously | Refused

  function Respond(t: Transport, echo: string, response: Response): Transport {
    Reject(t, echo, Answer, if response == Accepted then Success else if response == Refused then RemoteFailure else Uncertain)
  }

  // ---------------------------------------------------------------- connecting

  /** A URL that the socket's constructor refuses leaves the current socket as it is. */
  function Connect(t: Transport, initial: bool, throws: bool): Transport {
    if throws then t.(attempts := t.attempts + [Attempt(initial, Closed, false, Rejected)])
    else t.(attempts := t.attempts + [Attempt(initial, Connecting, false, Pending)], socket := Some(|t.attempts|))
  }

  function Start(t: Transport, throws: bool): Transport {
    if t.closing || t.startOperation.Some? || t.running then t
    else Connect(t.(running := true, startOperation := Some(|t.attempts|)), true, throws)
  }

  function RejectAttempt(attempt: Attempt): Attempt {
    if attempt.outcome == Pending then attempt.(outcome := Rejected) else attempt
  }

  function Terminated(attempt: Attempt): Attempt {
    if attempt.ready == Closed then attempt else attempt.(ready := Closing)
  }

  function Opens(t: Transport, a: AttemptId): Transport
    requires Known(t, a)
  {
    if t.closing || !t.running || t.socket != Some(a) then
      WithAttempt(t, a, RejectAttempt(t.attempts[a].(ready := Closing)))
    else
      WithAttempt(t, a, t.attempts[a].(ready := Open, wasOpen := true, outcome := Resolved)).(reconnectAttempt := 0)
  }

  /** Before the connection was open an error ends it; afterwards it is only reported. */
  function Errors(t: Transport, a: AttemptId): Transport
    requires Known(t, a)
  {
    if t.attempts[a].wasOpen then t else WithAttempt(t, a, RejectAttempt(Terminated(t.attempts[a])))
  }

  function Schedule(t: Transport): Transport {
    if !t.running || t.closing || t.timer.Some? then t
    else
      var k := if t.reconnectAttempt < |t.delays| then t.reconnectAttempt else |t.delays| - 1;
      t.(timer := Some(t.delays[k]), reconnectAttempt := t.reconnectAttempt + 1)
  }

  function SocketClosed(t: Transport, a: AttemptId, order: seq<string>): Transport
    requires Known(t, a)
  {
    var current := t.socket == Some(a);
    var dropped := WithAttempt(t, a, t.attempts[a].(ready := Closed)).(socket := if current then None else t.socket);
    var rejected := RejectEachOf(dropped, a, order);
    if !t.attempts[a].wasOpen then
      rejected.(attempts := dropped.attempts[a := RejectAttempt(dropped.attempts[a])])
    else if current && t.running && !t.closing then Schedule(rejected)
    else rejected
  }

  function DropSocket(t: Transport): Transport {
    if t.socket.Some? && Known(t, t.socket.value)
    then WithAttempt(t, t.socket.value, Terminated(t.attempts[t.socket.value])).(socket := None)
    else t.(socket := None)
  }

  /** The `catch` of a connection: a failed start stops, a failed reconnection tries again. */
  function HandleFailure(t: Transport, a: AttemptId): Transport
    requires Known(t, a)
  {
    var handled := WithAttempt(t, a, t.attempts[a].(outcome := Handled));
    if t.attempts[a].initial then DropSocket(handled.(running := false))
    else
      var open := t.socket.Some? && Known(t, t.socket.value) && t.attempts[t.socket.value].ready == Open;
      Schedule(if open then handled else DropSocket(handled))
  }

  function TimerFires(t: Transport, throws: bool): Transport {
    if t.timer.None? then t
    else if !t.running || t.closing then t.(timer := None)
    else Connect(t.(timer := None), false, throws)
  }

  function CloseTransport(t: Transport, order: seq<string>): Transport {
    if t.closing then t
    else DropSocket(RejectEach(t.(closing := true, running := false, timer := None), order))
  }

  // ---------------------------------------------------------------- runs

  datatype Step =
    | StartStep(throws: bool)
    | ClearStartStep
    | OpenStep(attempt: AttemptId)
    | ErrorStep(attempt: AttemptId)
    | PeerClosingStep(attempt: AttemptId)
    | ClosedStep(attempt: AttemptId, order: seq<string>)
    | FailureStep(attempt: AttemptId)
    | TimerStep(throws: bool)
    | SendStep(echo: string, sending: Sending)
    | SendFailedStep(echo: string)
    | TimeoutStep(echo: string)
    | ResponseStep(echo: string, response: Response)
    | CloseStep(order: seq<string>)

  predicate Lists(order: seq<string>, pending: map<string, Action>) {
    (forall echo | echo in pending :: echo in order) && (forall echo | echo in order :: echo in pending)
  }

  /** A socket opens only while it connects, and closes once; loops over actions see every key. */
  predicate Enabled(t: Transport, step: Step) {
    match step
    case ClearStartStep => t.startOperation.Some? && Known(t, t.startOperation.value)
        && (t.attempts[t.startOperation.value].outcome == Resolved || t.attempts[t.startOperation.value].outcome == Handled)
    case OpenStep(a) => Known(t, a) && t.attempts[a].ready == Connecting
    case ErrorStep(a) => Known(t, a) && t.attempts[a].ready != Closed
    case PeerClosingStep(a) => Known(t, a) && t.attempts[a].ready == Open
    case ClosedStep(a, order) => Known(t, a) && t.attempts[a].ready != Closed && Lists(order, t.pending)
    case FailureStep(a) => Known(t, a) && t.attempts[a].outcome == Rejected
    case CloseStep(order) => Lists(order, t.pending)
    case _ => true
  }

  function Perform(t: Transport, step: Step): Transport
    requires Enabled(t, step)
  {
    match step
    case StartStep(throws) => Start(t, throws)
    case ClearStartStep => t.(startOperation := None)
    case OpenStep(a) => Opens(t, a)
    case ErrorStep(a) => Errors(t, a)
    case PeerClosingStep(a) => WithAttempt(t, a, t.attempts[a].(ready := Closing))
    case ClosedStep(a, order) => SocketClosed(t, a, order)
    case FailureStep(a) => HandleFailure(t, a)
    case TimerStep(throws) => TimerFires(t, throws)
    case SendStep(echo, sending) => SendAction(t, echo, sending)
    case SendFailedStep(echo) => Reject(t, echo, SendError, Uncertain)
    case TimeoutStep(echo) => Reject(t, echo, Expiry, PendingFailure(t, echo))
    case ResponseStep(echo, response) => Respond(t, echo, response)
    case CloseStep(order) => CloseTransport(t, order)
  }

  function Apply(t: Transport, step: Step): Transport {
    if Enabled(t, step) then Perform(t, step) else t
  }

  function Run(delays: Delays, steps: seq<Step>): Transport {
    if steps == [] then Initial(delays) else Apply(Run(delays, steps[..|steps| - 1]), steps[|steps| - 1])
  }

  // ---------------------------------------------------------------- the invariant

  /** It goes on, or its failure handler has not run. */
  predicate Going(attempt: Attempt) {
    attempt.outcome == Pending || attempt.outcome == Rejected
  }

  predicate HasOpenSocket(t: Transport) {
    t.socket.Some? && Known(t, t.socket.value) && t.attempts[t.socket.value].wasOpen
  }

  ghost predicate HasAttempt(t: Transport) {
    exists a :: 0 <= a < |t.attempts| && Going(t.attempts[a])
  }

  predicate LastIsLive(t: Transport) {
    |t.attempts| > 0 && Going(t.attempts[|t.attempts| - 1])
  }

  predicate WellFormed(a: Attempt) {
    && (a.wasOpen <==> a.outcome == Resolved)
    && (a.ready == Open ==> a.wasOpen)
    && (a.ready == Connecting ==> a.outcome == Pending)
  }

  /** Only the last attempt may go on or own the current socket; the socket's close has not been seen. */
  ghost predicate Sockets(t: Transport) {
    && (forall a | 0 <= a < |t.attempts| :: WellFormed(t.attempts[a]))
    && (forall a | 0 <= a < |t.attempts| - 1 :: !Going(t.attempts[a]))
    && (t.socket.Some? ==> t.socket.value + 1 == |t.attempts| && t.attempts[t.socket.value].ready != Closed)
    && (t.closing ==> !t.running && t.socket.None? && t.timer.None? && t.pending == map[])
    && (!t.closing && LastIsLive(t) && t.attempts[|t.attempts| - 1].outcome == Pending ==>
          t.attempts[|t.attempts| - 1].ready == Connecting && t.socket == Some(|t.attempts| - 1))
    && (!t.closing ==> t.running == (HasOpenSocket(t) || LastIsLive(t) || t.timer.Some?))
    && (t.timer.Some? ==> t.socket.None? && !LastIsLive(t))
    && (t.socket.Some? ==> HasOpenSocket(t) || LastIsLive(t))
    && (t.timer.Some? ==> BacksOff(t, t.timer.value))
  }

  /** The n-th failure in a row waits for the n-th delay, and for the last one from then on. */
  predicate BacksOff(t: Transport, delay: nat) {
    0 < t.reconnectAttempt && delay == t.delays[if t.reconnectAttempt <= |t.delays| then t.reconnectAttempt - 1 else |t.delays| - 1]
  }

  /** A start that succeeded keeps the transport running until it is closed; only reconnections follow it. */
  ghost predicate StartedOnce(t: Transport) {
    forall a | 0 <= a < |t.attempts| && t.attempts[a].initial && t.attempts[a].outcome == Resolved ::
      && (!t.closing ==> t.running)
      && (forall b | a < b < |t.attempts| :: !t.attempts[b].initial)
  }

  /** The call is among the actions that wait. */
  predicate Waits(t: Transport, c: CallId) {
    c < |t.calls| && t.calls[c].echo in t.pending && t.pending[t.calls[c].echo].call == c
  }

  ghost predicate IsSettled(t: Transport, c: CallId) {
    exists i :: 0 <= i < |t.settled| && t.settled[i].call == c
  }

  predicate Fits(call: Call, s: Settlement) {
    && (call.handed <==> s.verdict != Unavailable && s.verdict != EchoTaken)
    && (s.cause == Expiry || s.cause == Disconnect || s.cause == Shutdown ==> s.verdict == Uncertain)
  }

  ghost predicate Actions(t: Transport) {
    && (forall echo | echo in t.pending :: ActionFits(t, echo))
    && (forall i | 0 <= i < |t.settled| :: t.settled[i].call < |t.calls| && Fits(t.calls[t.settled[i].call], t.settled[i]))
    && (forall i, j | 0 <= i < j < |t.settled| :: t.settled[i].call != t.settled[j].call)
    && (forall c | 0 <= c < |t.calls| :: IsSettled(t, c) <==> !Waits(t, c))
  }

  predicate ActionFits(t: Transport, echo: string)
    requires echo in t.pending
  {
    t.pending[echo].dispatched && t.pending[echo].call < |t.calls| && t.calls[t.pending[echo].call] == Call(echo, true)
  }

  /** Every action that waits was handed to the current, open socket. */
  ghost predicate OnSocket(t: Transport) {
    forall echo | echo in t.pending :: t.socket == Some(t.pending[echo].socket) && HasOpenSocket(t)
  }

  ghost predicate Inv(t: Transport) {
    Sockets(t) && Actions(t) && OnSocket(t) && StartedOnce(t)
  }

  // ---------------------------------------------------------------- actions settle once

  /** Nothing but actions and their records differs. */
  predicate SameSockets(t: Transport, u: Transport) {
    u == t.(pending := u.pending, calls := u.calls, settled := u.settled)
  }

  predicate MaySay(cause: Cause, verdict: Verdict) {
    verdict != Unavailable && verdict != EchoTaken && (cause == Expiry || cause == Disconnect || cause == Shutdown ==> verdict == Uncertain)
  }

  lemma SettledAppended(t: Transport, u: Transport, s: Settlement, c: CallId)
    requires u.settled == t.settled + [s]
    ensures IsSettled(u, c) <==> IsSettled(t, c) || s.call == c
  {
    assert u.settled[|t.settled|] == s;
    if IsSettled(t, c) {
      var i :| 0 <= i < |t.settled| && t.settled[i].call == c;
      assert u.settled[i].call == c;
    }
  }

  lemma ForgetKeeps(t: Transport, echo: string, cause: Cause, verdict: Verdict)
    requires Actions(t) && echo in t.pending && MaySay(cause, verdict)
    ensures Actions(Forget(t, echo, cause, verdict))
  {
    hide IsSettled;
    var u := Forget(t, echo, cause, verdict);
    var call := t.pending[echo].call;
    assert ActionFits(t, echo);
    assert Waits(t, call) && !IsSettled(t, call);
    forall c | 0 <= c < |u.calls| ensures IsSettled(u, c) <==> !Waits(u, c) {
      SettledAppended(t, u, Settlement(call, cause, verdict), c);
    }
    forall other | other in u.pending ensures ActionFits(u, other) { assert ActionFits(t, other); }
    forall i | 0 <= i < |t.settled| ensures t.settled[i].call != call { NotSettled(t, call, i); }
  }

  lemma NotSettled(t: Transport, c: CallId, i: nat)
    requires !IsSettled(t, c) && i < |t.settled|
    ensures t.settled[i].call != c
  { }

  lemma RejectKeeps(t: Transport, echo: string, cause: Cause, verdict: Verdict)
    requires Actions(t) && MaySay(cause, verdict)
    ensures Actions(Reject(t, echo, cause, verdict)) && SameSockets(t, Reject(t, echo, cause, verdict))
    ensures Reject(t, echo, cause, verdict).pending == t.pending - {echo}
  {
    hide Actions;
    if echo in t.pending { ForgetKeeps(t, echo, cause, verdict); }
  }

  /** Whatever waits was handed to a socket, so a failure that ends the wait leaves the delivery uncertain. */
  lemma FailureIsUncertain(t: Transport, echo: string)
    requires Actions(t) && echo in t.pending
    ensures PendingFailure(t, echo) == Uncertain
  {
    assert ActionFits(t, echo);
  }

  lemma {:induction false} RejectEachKeeps(t: Transport, order: seq<string>)
    requires Actions(t)
    ensures Actions(RejectEach(t, order)) && SameSockets(t, RejectEach(t, order))
    ensures RejectEach(t, order).pending.Keys == t.pending.Keys - (set e | e in order)
    decreases |order|
  {
    hide Actions, Reject, PendingFailure;
    if order != [] {
      var n := |order| - 1;
      var before := RejectEach(t, order[..n]);
      RejectEachKeeps(t, order[..n]);
      assert order == order[..n] + [order[n]];
      if order[n] in before.pending {
        FailureIsUncertain(before, order[n]);
        RejectKeeps(before, order[n], Shutdown, Uncertain);
      } else {
        RejectUnknown(before, order[n], Shutdown);
      }
    }
  }

  lemma RejectUnknown(t: Transport, echo: string, cause: Cause)
    requires echo !in t.pending
    ensures Reject(t, echo, cause, PendingFailure(t, echo)) == t
  { }

  lemma {:induction false} RejectEachOfKeeps(t: Transport, a: AttemptId, order: seq<string>)
    requires Actions(t)
    ensures Actions(RejectEachOf(t, a, order)) && SameSockets(t, RejectEachOf(t, a, order))
    ensures forall e :: e in RejectEachOf(t, a, order).pending <==> e in t.pending && (e in order ==> t.pending[e].socket != a)
    ensures forall e | e in RejectEachOf(t, a, order).pending :: RejectEachOf(t, a, order).pending[e] == t.pending[e]
    decreases |order|
  {
    hide Actions, Reject, PendingFailure;
    if order != [] {
      var n := |order| - 1;
      var before := RejectEachOf(t, a, order[..n]);
      RejectEachOfKeeps(t, a, order[..n]);
      assert order == order[..n] + [order[n]];
      if order[n] in before.pending && before.pending[order[n]].socket == a {
        FailureIsUncertain(before, order[n]);
        RejectKeeps(before, order[n], Disconnect, Uncertain);
      }
    }
  }

  lemma SettleAtOnceKeeps(t: Transport, echo: string, verdict: Verdict)
    requires Actions(t) && (verdict == Unavailable || verdict == EchoTaken)
    ensures Actions(SettleAtOnce(t, echo, verdict))
  {
    hide IsSettled;
    var u := SettleAtOnce(t, echo, verdict);
    var n := |t.calls|;
    forall e | e in u.pending ensures ActionFits(u, e) { assert ActionFits(t, e); }
    forall c | 0 <= c < |u.calls| ensures IsSettled(u, c) <==> !Waits(u, c) {
      SettledAppended(t, u, Settlement(n, AtOnce, verdict), c);
      if c == n {
        NewCallIsFree(t, u);
      } else {
        assert Waits(u, c) <==> Waits(t, c);
      }
    }
  }

  lemma NewCallIsFree(t: Transport, u: Transport)
    requires Actions(t) && u.pending == t.pending && |t.calls| < |u.calls|
    ensures !Waits(u, |t.calls|)
  {
    forall e | e in t.pending ensures t.pending[e].call < |t.calls| { assert ActionFits(t, e); }
  }

  /** The state while the action waits, once its payload was handed over. */
  function Dispatched(t: Transport, echo: string): Transport
    requires t.socket.Some?
  {
    t.(calls := t.calls + [Call(echo, true)], pending := t.pending[echo := Action(|t.calls|, t.socket.value, true)])
  }

  lemma DispatchedKeeps(t: Transport, echo: string)
    requires Actions(t) && t.socket.Some? && echo !in t.pending
    ensures Actions(Dispatched(t, echo))
  {
    hide IsSettled;
    var u := Dispatched(t, echo);
    var n := |t.calls|;
    forall e | e in u.pending ensures ActionFits(u, e) { if e != echo { assert ActionFits(t, e); } }
    forall c | 0 <= c < |u.calls| ensures IsSettled(u, c) <==> !Waits(u, c) {
      assert IsSettled(u, c) <==> IsSettled(t, c) by { SettledSame(t, u, c); }
      if c == n {
        NotYetSettled(t, n);
      } else {
        assert Waits(u, c) <==> Waits(t, c);
      }
    }
  }

  lemma SettledSame(t: Transport, u: Transport, c: CallId)
    requires u.settled == t.settled
    ensures IsSettled(u, c) <==> IsSettled(t, c)
  { }

  lemma NotYetSettled(t: Transport, c: CallId)
    requires Actions(t) && |t.calls| <= c
    ensures !IsSettled(t, c)
  { }

  lemma SendActions(t: Transport, echo: string, sending: Sending)
    requires Actions(t)
    ensures Actions(SendAction(t, echo, sending)) && SameSockets(t, SendAction(t, echo, sending))
    ensures SendAction(t, echo, sending).pending ==
      if CanSend(t) && echo !in t.pending && sending == Sent then t.pending[echo := Action(|t.calls|, t.socket.value, true)] else t.pending
  {
    hide Actions, CanSend;
    if !CanSend(t) {
      SettleAtOnceKeeps(t, echo, Unavailable);
    } else if echo in t.pending {
      SettleAtOnceKeeps(t, echo, EchoTaken);
    } else {
      assert t.socket.Some? by { SendsOnSocket(t); }
      var action := Action(|t.calls|, t.socket.value, false);
      assert t.pending[echo := action] - {echo} == t.pending;
      match sending
      case Sent =>
        assert t.pending[echo := action][echo := action.(dispatched := true)] == t.pending[echo := action.(dispatched := true)];
        DispatchedKeeps(t, echo);
      case Threw => SettleAtOnceKeeps(t, echo, Unavailable);
      case FailedAtOnce =>
        DispatchedKeeps(t, echo);
        RejectKeeps(Dispatched(t, echo), echo, SendError, Uncertain);
        assert Dispatched(t, echo).pending - {echo} == t.pending;
    }
  }

  lemma SendsOnSocket(t: Transport)
    requires CanSend(t)
    ensures t.socket.Some?
  { }

  // ---------------------------------------------------------------- connections

  ghost predicate Wired(t: Transport) {
    Sockets(t) && OnSocket(t) && StartedOnce(t)
  }

  lemma StartWired(t: Transport, throws: bool)
    requires Wired(t)
    ensures Wired(Start(t, throws))
  { }

  lemma OpensWired(t: Transport, a: AttemptId)
    requires Wired(t) && Known(t, a) && t.attempts[a].ready == Connecting
    ensures Wired(Opens(t, a))
  { }

  lemma ErrorsWired(t: Transport, a: AttemptId)
    requires Wired(t) && Known(t, a) && t.attempts[a].ready != Closed
    ensures Wired(Errors(t, a))
  { }

  lemma PeerClosingWired(t: Transport, a: AttemptId)
    requires Wired(t) && Known(t, a) && t.attempts[a].ready == Open
    ensures Wired(WithAttempt(t, a, t.attempts[a].(ready := Closing)))
  { }

  lemma TimerWired(t: Transport, throws: bool)
    requires Wired(t)
    ensures Wired(TimerFires(t, throws))
  { }

  lemma FailureWired(t: Transport, a: AttemptId)
    requires Wired(t) && Known(t, a) && t.attempts[a].outcome == Rejected
    ensures Wired(HandleFailure(t, a))
  {
    hide Wired;
    if t.attempts[a].initial { StartFailureWired(t, a); } else { ReconnectFailureWired(t, a); }
  }

  lemma StartFailureWired(t: Transport, a: AttemptId)
    requires Wired(t) && Known(t, a) && t.attempts[a].outcome == Rejected && t.attempts[a].initial
    ensures Wired(HandleFailure(t, a))
  { }

  /** Nothing is open, under way or planned. */
  ghost predicate Idle(t: Transport) {
    && (forall a | 0 <= a < |t.attempts| :: WellFormed(t.attempts[a]) && !Going(t.attempts[a]))
    && t.socket.None? && t.timer.None? && t.pending == map[] && (t.closing <==> !t.running)
  }

  lemma ReconnectFailureWired(t: Transport, a: AttemptId)
    requires Wired(t) && Known(t, a) && t.attempts[a].outcome == Rejected && !t.attempts[a].initial
    ensures Wired(HandleFailure(t, a))
  {
    hide Wired, HandleFailure, DropSocket, Schedule, Idle, StartedOnce;
    var u := DropSocket(WithAttempt(t, a, t.attempts[a].(outcome := Handled)));
    FailureSchedules(t, a);
    FailureIdles(t, a);
    FailureStarted(t, a);
    IdleSchedules(u);
  }

  lemma FailureSchedules(t: Transport, a: AttemptId)
    requires Wired(t) && Known(t, a) && t.attempts[a].outcome == Rejected && !t.attempts[a].initial
    ensures HandleFailure(t, a) == Schedule(DropSocket(WithAttempt(t, a, t.attempts[a].(outcome := Handled))))
  {
    hide Schedule, DropSocket, OnSocket, StartedOnce, BacksOff;
    assert Going(t.attempts[a]);
  }

  lemma FailureIdles(t: Transport, a: AttemptId)
    requires Wired(t) && Known(t, a) && t.attempts[a].outcome == Rejected
    ensures var u := DropSocket(WithAttempt(t, a, t.attempts[a].(outcome := Handled))); Idle(u)
  {
    hide StartedOnce, BacksOff;
    assert Going(t.attempts[a]);
  }

  lemma FailureStarted(t: Transport, a: AttemptId)
    requires Wired(t) && Known(t, a) && t.attempts[a].outcome == Rejected
    ensures StartedOnce(DropSocket(WithAttempt(t, a, t.attempts[a].(outcome := Handled))))
  {
    hide Sockets, OnSocket;
  }

  /** From an idle state a running transport sets its timer. */
  lemma IdleSchedules(t: Transport)
    requires Idle(t) && StartedOnce(t)
    ensures Wired(Schedule(t))
  {
  }

  function Dropped(t: Transport, a: AttemptId): Transport
    requires Known(t, a)
  {
    WithAttempt(t, a, t.attempts[a].(ready := Closed)).(socket := if t.socket == Some(a) then None else t.socket)
  }

  /** What waits was handed to the current socket, so all of it is rejected with that socket, and none with another. */
  lemma RejectsItsActions(t: Transport, a: AttemptId, order: seq<string>)
    requires OnSocket(t) && Actions(t) && Known(t, a) && Lists(order, t.pending)
    ensures SameSockets(Dropped(t, a), RejectEachOf(Dropped(t, a), a, order))
    ensures t.socket == Some(a) ==> RejectEachOf(Dropped(t, a), a, order).pending == map[]
    ensures t.socket != Some(a) ==> RejectEachOf(Dropped(t, a), a, order).pending == t.pending
    ensures Actions(RejectEachOf(Dropped(t, a), a, order))
  {
    hide Actions;
    DropActions(t, Dropped(t, a));
    RejectEachOfKeeps(Dropped(t, a), a, order);
  }

  lemma SocketClosedWired(t: Transport, a: AttemptId, order: seq<string>)
    requires Wired(t) && Actions(t) && Known(t, a) && t.attempts[a].ready != Closed && Lists(order, t.pending)
    ensures Wired(SocketClosed(t, a, order))
  {
    hide Actions, RejectEachOf, Wired;
    assert OnSocket(t) by { WiredParts(t); }
    RejectsItsActions(t, a, order);
    var rejected := RejectEachOf(Dropped(t, a), a, order);
    if !t.attempts[a].wasOpen {
      NeverOpenedWired(t, a, rejected);
    } else {
      OpenedWired(t, a, rejected);
    }
  }

  lemma WiredParts(t: Transport)
    requires Wired(t)
    ensures OnSocket(t)
  { }

  lemma NeverOpenedWired(t: Transport, a: AttemptId, rejected: Transport)
    requires Wired(t) && Known(t, a) && t.attempts[a].ready != Closed && !t.attempts[a].wasOpen
    requires SameSockets(Dropped(t, a), rejected) && rejected.pending == (if t.socket == Some(a) then map[] else t.pending)
    ensures Wired(rejected.(attempts := Dropped(t, a).attempts[a := RejectAttempt(Dropped(t, a).attempts[a])]))
  { }

  lemma OpenedWired(t: Transport, a: AttemptId, rejected: Transport)
    requires Wired(t) && Known(t, a) && t.attempts[a].ready != Closed && t.attempts[a].wasOpen
    requires SameSockets(Dropped(t, a), rejected) && rejected.pending == (if t.socket == Some(a) then map[] else t.pending)
    ensures Wired(if t.socket == Some(a) && t.running && !t.closing then Schedule(rejected) else rejected)
  { }

  lemma DropActions(t: Transport, u: Transport)
    requires Actions(t) && u.pending == t.pending && u.calls == t.calls && u.settled == t.settled
    ensures Actions(u)
  {
    forall e | e in u.pending ensures ActionFits(u, e) { assert ActionFits(t, e); }
    forall c | 0 <= c < |u.calls| ensures IsSettled(u, c) <==> !Waits(u, c) { assert IsSettled(t, c) <==> !Waits(t, c); }
  }

  lemma CloseWired(t: Transport, order: seq<string>)
    requires Wired(t) && Actions(t) && Lists(order, t.pending)
    ensures Wired(CloseTransport(t, order))
  {
    hide Actions;
    if !t.closing {
      var u := t.(closing := true, running := false, timer := None);
      assert Actions(u) by { DropActions(t, u); }
      RejectEachKeeps(u, order);
      assert RejectEach(u, order).pending == map[];
    }
  }

  // ---------------------------------------------------------------- runs keep the invariant

  lemma ConnectionsLeaveActions(t: Transport, step: Step)
    requires Actions(t) && Enabled(t, step)
    requires step.StartStep? || step.ClearStartStep? || step.OpenStep? || step.ErrorStep? || step.PeerClosingStep?
      || step.FailureStep? || step.TimerStep?
    ensures Actions(Perform(t, step))
  {
    hide Actions;
    LeavesRecords(t, step);
    hide Perform, Enabled;
    DropActions(t, Perform(t, step));
  }

  lemma LeavesRecords(t: Transport, step: Step)
    requires Enabled(t, step)
    requires step.StartStep? || step.ClearStartStep? || step.OpenStep? || step.ErrorStep? || step.PeerClosingStep?
      || step.FailureStep? || step.TimerStep?
    ensures Perform(t, step).pending == t.pending && Perform(t, step).calls == t.calls && Perform(t, step).settled == t.settled
  {
    hide Connect, Opens, Errors, DropSocket, Schedule;
    match step
    case OpenStep(a) => OpensLeaves(t, a);
    case ErrorStep(a) => OpensLeaves(t, a);
    case FailureStep(a) => FailureLeaves(t, a);
    case StartStep(throws) => ConnectLeaves(t.(running := true, startOperation := Some(|t.attempts|)), true, throws);
    case TimerStep(throws) => ConnectLeaves(t.(timer := None), false, throws);
    case _ =>
  }

  lemma ConnectLeaves(t: Transport, initial: bool, throws: bool)
    ensures SameRecords(t, Connect(t, initial, throws))
  { }

  lemma OpensLeaves(t: Transport, a: AttemptId)
    requires Known(t, a)
    ensures SameRecords(t, Opens(t, a)) && SameRecords(t, Errors(t, a))
  { }

  lemma FailureLeaves(t: Transport, a: AttemptId)
    requires Known(t, a)
    ensures SameRecords(t, HandleFailure(t, a))
  { }

  predicate SameRecords(t: Transport, u: Transport) {
    u.pending == t.pending && u.calls == t.calls && u.settled == t.settled
  }

  lemma ClosedActions(t: Transport, a: AttemptId, order: seq<string>)
    requires Wired(t) && Actions(t) && Known(t, a) && Lists(order, t.pending)
    ensures Actions(SocketClosed(t, a, order))
  {
    hide Actions, RejectEachOf, Wired;
    assert OnSocket(t) by { WiredParts(t); }
    RejectsItsActions(t, a, order);
    DropActions(RejectEachOf(Dropped(t, a), a, order), SocketClosed(t, a, order));
  }

  lemma CloseActions(t: Transport, order: seq<string>)
    requires Actions(t)
    ensures Actions(CloseTransport(t, order))
  {
    hide Actions, RejectEach;
    if !t.closing {
      var u := t.(closing := true, running := false, timer := None);
      DropActions(t, u);
      RejectEachKeeps(u, order);
      DropActions(RejectEach(u, order), CloseTransport(t, order));
    }
  }

  lemma RejectWired(t: Transport, u: Transport)
    requires Wired(t) && SameSockets(t, u) && u.pending.Keys <= t.pending.Keys && forall e | e in u.pending :: u.pending[e] == t.pending[e]
    ensures Wired(u)
  { }

  lemma SendWired(t: Transport, echo: string, sending: Sending)
    requires Wired(t) && Actions(t)
    ensures Wired(SendAction(t, echo, sending))
  {
    hide Actions, SendAction;
    SendActions(t, echo, sending);
  }

  lemma RejectStepKeeps(t: Transport, echo: string, cause: Cause, verdict: Verdict)
    requires Inv(t) && (echo in t.pending ==> MaySay(cause, verdict))
    ensures Inv(Reject(t, echo, cause, verdict))
  {
    hide Sockets, Actions, OnSocket, StartedOnce, Reject;
    if echo in t.pending {
      RejectKeeps(t, echo, cause, verdict);
      RejectWired(t, Reject(t, echo, cause, verdict));
    } else {
      RejectNothing(t, echo, cause, verdict);
    }
  }

  lemma RejectNothing(t: Transport, echo: string, cause: Cause, verdict: Verdict)
    requires echo !in t.pending
    ensures Reject(t, echo, cause, verdict) == t
  { }

  lemma PerformKeeps(t: Transport, step: Step)
    requires Inv(t) && Enabled(t, step)
    ensures Inv(Perform(t, step))
  {
    hide Sockets, Actions, OnSocket, StartedOnce, Start, Opens, Errors, SocketClosed, HandleFailure, TimerFires, SendAction, Reject,
      CloseTransport, PendingFailure;
    assert Wired(t);
    match step
    case StartStep(throws) => StartWired(t, throws); ConnectionsLeaveActions(t, step);
    case ClearStartStep => ClearStartWired(t); ConnectionsLeaveActions(t, step);
    case OpenStep(a) => OpensWired(t, a); ConnectionsLeaveActions(t, step);
    case ErrorStep(a) => ErrorsWired(t, a); ConnectionsLeaveActions(t, step);
    case PeerClosingStep(a) => PeerClosingWired(t, a); ConnectionsLeaveActions(t, step);
    case ClosedStep(a, order) => SocketClosedWired(t, a, order); ClosedActions(t, a, order);
    case FailureStep(a) => FailureWired(t, a); ConnectionsLeaveActions(t, step);
    case TimerStep(throws) => TimerWired(t, throws); ConnectionsLeaveActions(t, step);
    case SendStep(echo, sending) => SendWired(t, echo, sending); SendActions(t, echo, sending);
    case SendFailedStep(echo) => RejectStepKeeps(t, echo, SendError, Uncertain);
    case TimeoutStep(echo) =>
      if echo in t.pending { FailureIsUncertain(t, echo); }
      RejectStepKeeps(t, echo, Expiry, PendingFailure(t, echo));
    case ResponseStep(echo, response) =>
      RejectStepKeeps(t, echo, Answer, if response == Accepted then Success else if response == Refused then RemoteFailure else Uncertain);
    case CloseStep(order) => CloseWired(t, order); CloseActions(t, order);
  }

  lemma ClearStartWired(t: Transport)
    requires Wired(t)
    ensures Wired(t.(startOperation := None))
  { }

  lemma {:induction false} RunKeeps(delays: Delays, steps: seq<Step>)
    ensures Inv(Run(delays, steps))
  {
    if steps != [] {
      hide Inv, Perform, Enabled;
      var t := Run(delays, steps[..|steps| - 1]);
      RunKeeps(delays, steps[..|steps| - 1]);
      if Enabled(t, steps[|steps| - 1]) { PerformKeeps(t, steps[|steps| - 1]); }
    }
  }

  // ---------------------------------------------------------------- the claims

  /** A call is settled exactly when it waits no more, and never twice. */
  lemma EveryCallSettlesOnce(delays: Delays, steps: seq<Step>, c: CallId)
    requires c < |Run(delays, steps).calls|
    ensures IsSettled(Run(delays, steps), c) <==> !Waits(Run(delays, steps), c)
    ensures forall i, j | 0 <= i < |Run(delays, steps).settled| && 0 <= j < |Run(delays, steps).settled|
              && Run(delays, steps).settled[i].call == c && Run(delays, steps).settled[j].call == c :: i == j
  {
    RunKeeps(delays, steps);
  }

  /**
   A call is reported as not sent exactly when its payload was not handed to a socket; a timeout, a
   disconnection and the closing of the transport always leave the delivery uncertain.
   */
  lemma VerdictsFitTheDispatch(delays: Delays, steps: seq<Step>, i: nat)
    requires i < |Run(delays, steps).settled|
    ensures Run(delays, steps).settled[i].call < |Run(delays, steps).calls|
    ensures Fits(Run(delays, steps).calls[Run(delays, steps).settled[i].call], Run(delays, steps).settled[i])
  {
    RunKeeps(delays, steps);
  }

  /** Once closed, nothing waits, no timer is set and no socket is kept, so no reconnection follows. */
  lemma ClosedIsQuiet(delays: Delays, steps: seq<Step>)
    requires Run(delays, steps).closing
    ensures Run(delays, steps).pending == map[] && Run(delays, steps).timer.None? && Run(delays, steps).socket.None?
    ensures forall c | 0 <= c < |Run(delays, steps).calls| :: IsSettled(Run(delays, steps), c)
  {
    RunKeeps(delays, steps);
  }

  /**
   A transport that runs has an open socket, a connection attempt or a reconnect timer, and only one of
   them; it keeps running from the first start that succeeded until it is closed.
   */
  lemma AlwaysOneWayBack(delays: Delays, steps: seq<Step>)
    ensures var t := Run(delays, steps);
      t.running && !t.closing ==>
        && (HasOpenSocket(t) || HasAttempt(t) || t.timer.Some?)
        && !(HasOpenSocket(t) && HasAttempt(t)) && !(HasOpenSocket(t) && t.timer.Some?) && !(HasAttempt(t) && t.timer.Some?)
    ensures var t := Run(delays, steps);
      !t.closing && (exists a :: 0 <= a < |t.attempts| && t.attempts[a].initial && t.attempts[a].outcome == Resolved) ==> t.running
  {
    RunKeeps(delays, steps);
    var t := Run(delays, steps);
    assert HasAttempt(t) <==> LastIsLive(t) by { hide Actions, OnSocket, StartedOnce; }
  }
}
