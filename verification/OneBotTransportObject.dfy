/**
 The forward WebSocket transport as an object. Each method is one block or event handler of the
 source and is proved equal to its function in `OneBotTransport`.
 */
module OneBotTransportObject {
  import opened Common
  import opened OneBotTransport

  lemma NextPrefix(order: seq<string>, i: nat)
    requires i < |order|
    ensures order[..i + 1][..i] == order[..i] && order[..i + 1][i] == order[i] && |order[..i + 1]| == i + 1
  { }

  class ForwardWebSocketTransport {
    const reconnectDelays: Delays
    var running: bool
    var closing: bool
    var startOperation: Option<AttemptId>
    var socket: Option<AttemptId>
    var reconnectTimer: Option<nat>
    var reconnectAttempt: nat
    var attempts: seq<Attempt>
    var pendingActions: map<string, Action>
    var calls: seq<Call>
    var settled: seq<Settlement>

    ghost function State(): Transport
      reads this
    {
      Transport(reconnectDelays, running, closing, startOperation, socket, reconnectTimer, reconnectAttempt, attempts,
        pendingActions, calls, settled)
    }

    constructor (delays: Delays)
      ensures State() == Initial(delays)
    {
      reconnectDelays := delays;
      running, closing, startOperation, socket, reconnectTimer, reconnectAttempt := false, false, None, None, None, 0;
      attempts, pendingActions, calls, settled := [], map[], [], [];
    }

    // ---------------------------------------------------------------- actions

    method RejectAction(echo: string, cause: Cause, verdict: Verdict)
      modifies this`pendingActions, this`settled
      ensures State() == Reject(old(State()), echo, cause, verdict)
    {
      if echo !in pendingActions { return; }
      settled := settled + [Settlement(pendingActions[echo].call, cause, verdict)];
      pendingActions := pendingActions - {echo};
    }

    /** A failure that ends a wait, uncertain once the action was dispatched. */
    method FailAction(echo: string, cause: Cause)
      modifies this`pendingActions, this`settled
      ensures State() == Reject(old(State()), echo, cause, PendingFailure(old(State()), echo))
    {
      if echo in pendingActions && pendingActions[echo].dispatched {
        RejectAction(echo, cause, Uncertain);
      } else {
        RejectAction(echo, cause, Unavailable);
      }
    }

    method RejectAllPending(order: seq<string>)
      modifies this`pendingActions, this`settled
      ensures State() == RejectEach(old(State()), order)
    {
      var i := 0;
      assert order[..0] == [];
      while i < |order|
        invariant 0 <= i <= |order|
        invariant State() == RejectEach(old(State()), order[..i])
      {
        NextPrefix(order, i);
        FailAction(order[i], Shutdown);
        i := i + 1;
      }
      assert order[..|order|] == order;
    }

    method RejectPendingForSocket(a: AttemptId, order: seq<string>)
      modifies this`pendingActions, this`settled
      ensures State() == RejectEachOf(old(State()), a, order)
    {
      var i := 0;
      assert order[..0] == [];
      while i < |order|
        invariant 0 <= i <= |order|
        invariant State() == RejectEachOf(old(State()), a, order[..i])
      {
        NextPrefix(order, i);
        if order[i] in pendingActions && pendingActions[order[i]].socket == a { FailAction(order[i], Disconnect); }
        i := i + 1;
      }
      assert order[..|order|] == order;
    }

    /** Answers whether the action waits now. */
    method Send(echo: string, sending: Sending) returns (waits: bool)
      modifies this`pendingActions, this`settled, this`calls
      ensures State() == SendAction(old(State()), echo, sending)
      ensures waits <==> CanSend(old(State())) && echo !in old(pendingActions) && sending == Sent
    {
      var call := |calls|;
      if !running || closing || socket.None? || socket.value >= |attempts| || attempts[socket.value].ready != Open {
        calls := calls + [Call(echo, false)];
        settled := settled + [Settlement(call, AtOnce, Unavailable)];
        return false;
      }
      if echo in pendingActions {
        calls := calls + [Call(echo, false)];
        settled := settled + [Settlement(call, AtOnce, EchoTaken)];
        return false;
      }
      calls := calls + [Call(echo, sending != Threw)];
      pendingActions := pendingActions[echo := Action(call, socket.value, false)];
      match sending
      case Sent =>
        pendingActions := pendingActions[echo := pendingActions[echo].(dispatched := true)];
        return true;
      case Threw =>
        RejectAction(echo, AtOnce, Unavailable);
        return false;
      case FailedAtOnce =>
        RejectAction(echo, SendError, Uncertain);
        return false;
    }

    method HandleActionResponse(echo: string, response: Response)
      modifies this`pendingActions, this`settled
      ensures State() == Respond(old(State()), echo, response)
    {
      match response
      case Accepted => RejectAction(echo, Answer, Success);
      case AcceptedAsynchronously => RejectAction(echo, Answer, Uncertain);
      case Refused => RejectAction(echo, Answer, RemoteFailure);
    }

    // ---------------------------------------------------------------- connecting

    method OpenConnection(initial: bool, throws: bool)
      modifies this`attempts, this`socket
      ensures State() == Connect(old(State()), initial, throws)
    {
      if throws {
        attempts := attempts + [Attempt(initial, Closed, false, Rejected)];
      } else {
        socket := Some(|attempts|);
        attempts := attempts + [Attempt(initial, Connecting, false, Pending)];
      }
    }

    /** Answers whether a new attempt was begun. */
    method StartTransport(throws: bool) returns (begun: bool)
      modifies this
      ensures State() == Start(old(State()), throws)
      ensures !begun ==> State() == old(State())
    {
      if closing || startOperation.Some? || running { return false; }
      running := true;
      startOperation := Some(|attempts|);
      OpenConnection(true, throws);
      begun := true;
    }

    method OnOpen(a: AttemptId)
      requires a < |attempts|
      modifies this`attempts, this`reconnectAttempt
      ensures State() == Opens(old(State()), a)
    {
      if closing || !running || socket != Some(a) {
        attempts := attempts[a := RejectAttempt(attempts[a].(ready := Closing))];
        return;
      }
      attempts := attempts[a := attempts[a].(ready := Open, wasOpen := true, outcome := Resolved)];
      reconnectAttempt := 0;
    }

    method OnError(a: AttemptId)
      requires a < |attempts|
      modifies this`attempts
      ensures State() == Errors(old(State()), a)
    {
      if attempts[a].wasOpen { return; }
      attempts := attempts[a := RejectAttempt(Terminated(attempts[a]))];
    }

    method OnClose(a: AttemptId, order: seq<string>)
      requires a < |attempts|
      modifies this
      ensures State() == SocketClosed(old(State()), a, order)
    {
      hide RejectEachOf;
      ghost var was := State();
      var isCurrent := socket == Some(a);
      attempts := attempts[a := attempts[a].(ready := Closed)];
      if isCurrent { socket := None; }
      assert State() == Dropped(was, a);
      RejectPendingForSocket(a, order);
      if !attempts[a].wasOpen {
        attempts := attempts[a := RejectAttempt(attempts[a])];
        return;
      }
      if isCurrent && running && !closing { ScheduleReconnect(); }
    }

    method ScheduleReconnect()
      modifies this`reconnectTimer, this`reconnectAttempt
      ensures State() == Schedule(old(State()))
    {
      if !running || closing || reconnectTimer.Some? { return; }
      var k := if reconnectAttempt < |reconnectDelays| then reconnectAttempt else |reconnectDelays| - 1;
      reconnectTimer := Some(reconnectDelays[k]);
      reconnectAttempt := reconnectAttempt + 1;
    }

    method ReleaseSocket()
      modifies this`attempts, this`socket
      ensures State() == DropSocket(old(State()))
    {
      if socket.Some? && socket.value < |attempts| {
        attempts := attempts[socket.value := Terminated(attempts[socket.value])];
      }
      socket := None;
    }

    method OnConnectFailure(a: AttemptId)
      requires a < |attempts|
      modifies this
      ensures State() == HandleFailure(old(State()), a)
    {
      var initial := attempts[a].initial;
      var isOpen := socket.Some? && socket.value < |attempts| && attempts[socket.value].ready == Open;
      attempts := attempts[a := attempts[a].(outcome := Handled)];
      if initial {
        running := false;
        ReleaseSocket();
        return;
      }
      if !isOpen { ReleaseSocket(); }
      ScheduleReconnect();
    }

    method OnReconnectTimer(throws: bool)
      modifies this
      ensures State() == TimerFires(old(State()), throws)
    {
      if reconnectTimer.None? { return; }
      reconnectTimer := None;
      if !running || closing { return; }
      OpenConnection(false, throws);
    }

    method CloseOnce(order: seq<string>)
      modifies this
      ensures State() == CloseTransport(old(State()), order)
    {
      if closing { return; }
      closing, running, reconnectTimer := true, false, None;
      RejectAllPending(order);
      ReleaseSocket();
    }
  }
}
