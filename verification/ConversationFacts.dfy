/** The facts of a conversation that both conversation stores keep and compare. */
module ConversationFacts {
  import opened Common
  import opened SessionKey
  import opened CanonicalJson

  type SessionId = string

  /** What a session fixes when its first message arrives. */
  datatype Metadata = Metadata(route: Route, contentFormat: string)

  datatype Sender = Sender(id: string, username: string, displayName: Option<string>, isSelf: bool)

  datatype Omitted = Omitted(reason: string, originalSizeBytes: int)

  datatype Message = Message(
    messageId: string, route: Route, sender: Sender, receivedAt: string, content: string, contentFormat: string,
    contentOmitted: Option<Omitted>, replyToMessageId: Option<string>, trigger: Option<string>)

  datatype MessageKey = MessageKey(channelId: string, messageId: string)

  datatype Origin = CurrentSession | CrossSession

  /** The association of a public message with the tool call that sent it. */
  datatype Outbound = Outbound(sentAt: string, runId: string, toolCallId: string, sourceSessionId: SessionId, origin: Origin)

  /** A delivery receipt with the trusted fields of its sender. */
  datatype Delivery = Delivery(
    route: Route, contentFormat: string, receipt: MessageKey, sentAt: string,
    runId: string, toolCallId: string, sourceSessionId: SessionId)

  /** A delivery whose message has not been observed yet. */
  datatype Pending = Pending(targetSessionId: SessionId, route: Route, contentFormat: string, outbound: Outbound)

  datatype ToolCall = ToolCall(
    runId: string, toolCallId: string, toolName: string, arguments: Option<Json>, rawArguments: Option<string>)

  datatype ToolResult = ToolResult(runId: string, toolCallId: string, toolName: string, output: Json)

  datatype Entry =
    | MessageEntry(key: MessageKey, observed: Message, outbound: Option<Outbound>)
    | CallEntry(call: ToolCall)
    | ResultEntry(result: ToolResult)

  /** What makes an entry unique in its timeline. */
  datatype EntryId =
    | MessageOf(key: MessageKey) | CallOf(runId: string, toolCallId: string) | ResultOf(runId: string, toolCallId: string)

  function IdOf(e: Entry): EntryId {
    match e
    case MessageEntry(key, _, _) => MessageOf(key)
    case CallEntry(call) => CallOf(call.runId, call.toolCallId)
    case ResultEntry(result) => ResultOf(result.runId, result.toolCallId)
  }

  function KeyOf(m: Message): MessageKey {
    MessageKey(m.route.channelId, m.messageId)
  }

  function PendingOf(target: SessionId, d: Delivery): Pending {
    Pending(target, d.route, d.contentFormat,
            Outbound(d.sentAt, d.runId, d.toolCallId, d.sourceSessionId,
                     if d.sourceSessionId == target then CurrentSession else CrossSession))
  }

  /** `valid` is the verdict on the route and the timestamp. */
  predicate ValidDelivery(target: SessionId, d: Delivery, valid: bool) {
    && valid && !Blank(target) && !Blank(d.contentFormat) && !Blank(d.receipt.channelId) && !Blank(d.receipt.messageId)
    && !Blank(d.runId) && !Blank(d.toolCallId) && !Blank(d.sourceSessionId)
    && d.receipt.channelId == d.route.channelId
  }

  predicate PendingMatches(p: Pending, sessionId: SessionId, route: Route, contentFormat: string) {
    p.targetSessionId == sessionId && p.route == route && p.contentFormat == contentFormat
  }

  predicate NamesCall(runId: string, toolCallId: string, toolName: string) {
    !Blank(runId) && !Blank(toolCallId) && !Blank(toolName)
  }

  predicate OnePayload(call: ToolCall) {
    call.arguments.Some? != call.rawArguments.Some?
  }

  // ---------------------------------------------------------------- sameness

  /** The field-by-field comparison of observed messages. */
  predicate SameMessage(a: Message, b: Message) {
    && a.messageId == b.messageId && SameRoute(a.route, b.route)
    && a.sender.id == b.sender.id && a.sender.username == b.sender.username
    && a.sender.displayName == b.sender.displayName && a.sender.isSelf == b.sender.isSelf
    && a.receivedAt == b.receivedAt && a.content == b.content && a.contentFormat == b.contentFormat
    && ReasonOf(a.contentOmitted) == ReasonOf(b.contentOmitted) && SizeOf(a.contentOmitted) == SizeOf(b.contentOmitted)
    && a.replyToMessageId == b.replyToMessageId && a.trigger == b.trigger
  }

  function ReasonOf(omitted: Option<Omitted>): Option<string> {
    if omitted.None? then None else Some(omitted.value.reason)
  }

  function SizeOf(omitted: Option<Omitted>): Option<int> {
    if omitted.None? then None else Some(omitted.value.originalSizeBytes)
  }

  predicate SameRoute(a: Route, b: Route) {
    && a.channelId == b.channelId && a.conversationKind == b.conversationKind
    && a.conversationId == b.conversationId && a.threadId == b.threadId
  }

  predicate SameOutbound(a: Outbound, b: Outbound) {
    && a.sentAt == b.sentAt && a.runId == b.runId && a.toolCallId == b.toolCallId
    && a.sourceSessionId == b.sourceSessionId && a.origin == b.origin
  }

  predicate SamePending(a: Pending, b: Pending) {
    && a.targetSessionId == b.targetSessionId && SameRoute(a.route, b.route)
    && a.contentFormat == b.contentFormat && SameOutbound(a.outbound, b.outbound)
  }

  /** The comparisons miss no field: they are equality. */
  lemma SameIsEqual(a: Message, b: Message, p: Pending, q: Pending)
    ensures SameMessage(a, b) <==> a == b
    ensures SamePending(p, q) <==> p == q
    ensures SameOutbound(p.outbound, q.outbound) <==> p.outbound == q.outbound
  {
    if SameMessage(a, b) {
      assert a.contentOmitted == b.contentOmitted;
      assert a.sender == b.sender && a.route == b.route;
    }
  }

  // ---------------------------------------------------------------- timelines

  /** The position of the first entry with an id. */
  function Find(timeline: seq<Entry>, id: EntryId): (r: Option<nat>)
    ensures r.Some? ==> r.value < |timeline| && IdOf(timeline[r.value]) == id
    ensures r.None? ==> forall i | 0 <= i < |timeline| :: IdOf(timeline[i]) != id
  {
    if timeline == [] then None
    else
      var n := |timeline| - 1;
      match Find(timeline[..n], id)
      case Some(i) => Some(i)
      case None => if IdOf(timeline[n]) == id then Some(n) else None
  }

  predicate DistinctIds(timeline: seq<Entry>) {
    forall i, k | 0 <= i < k < |timeline| :: IdOf(timeline[i]) != IdOf(timeline[k])
  }

  lemma Found(timeline: seq<Entry>, i: nat)
    requires DistinctIds(timeline) && i < |timeline|
    ensures Find(timeline, IdOf(timeline[i])) == Some(i)
  {
  }

  lemma FindAppend(timeline: seq<Entry>, e: Entry, id: EntryId)
    ensures Find(timeline + [e], id)
         == if Find(timeline, id).Some? then Find(timeline, id) else if IdOf(e) == id then Some(|timeline|) else None
  {
    assert (timeline + [e])[..|timeline|] == timeline;
  }

  function InsertAt(timeline: seq<Entry>, n: nat, e: Entry): (r: seq<Entry>)
    requires n <= |timeline|
  {
    timeline[..n] + [e] + timeline[n..]
  }

  /** Where an entry of the longer timeline comes from. */
  function Before(n: nat, i: nat): (k: nat)
    requires i != n
  {
    if i < n then i else i - 1
  }

  lemma InsertedAt(timeline: seq<Entry>, n: nat, e: Entry, i: nat)
    requires n <= |timeline| && i <= |timeline|
    ensures |InsertAt(timeline, n, e)| == |timeline| + 1
    ensures InsertAt(timeline, n, e)[i] == if i == n then e else timeline[Before(n, i)]
  {
  }

  lemma DistinctInsert(timeline: seq<Entry>, n: nat, e: Entry)
    requires n <= |timeline| && DistinctIds(timeline) && Find(timeline, IdOf(e)).None?
    ensures DistinctIds(InsertAt(timeline, n, e))
  {
    var more := InsertAt(timeline, n, e);
    hide InsertAt;
    InsertedAt(timeline, n, e, 0);
    forall i, k | 0 <= i < k < |more| ensures IdOf(more[i]) != IdOf(more[k]) {
      InsertedAt(timeline, n, e, i);
      InsertedAt(timeline, n, e, k);
      assert i != n && k != n ==> Before(n, i) < Before(n, k);
    }
  }

  lemma FindInsert(timeline: seq<Entry>, n: nat, e: Entry, id: EntryId)
    requires n <= |timeline| && DistinctIds(timeline) && Find(timeline, IdOf(e)).None?
    ensures Find(InsertAt(timeline, n, e), id)
         == if IdOf(e) == id then Some(n)
            else if Find(timeline, id).Some? && Find(timeline, id).value >= n then Some(Find(timeline, id).value + 1)
            else Find(timeline, id)
  {
    hide InsertAt, DistinctIds, Find;
    DistinctInsert(timeline, n, e);
    var more := InsertAt(timeline, n, e);
    InsertedAt(timeline, n, e, n);
    if IdOf(e) == id {
      Found(more, n);
    } else if Find(timeline, id).Some? {
      var i := Find(timeline, id).value;
      var j := if i >= n then i + 1 else i;
      InsertedAt(timeline, n, e, j);
      Found(more, j);
    } else if Find(more, id).Some? {
      InsertedAt(timeline, n, e, Find(more, id).value);
    }
  }

  lemma FindReplace(timeline: seq<Entry>, n: nat, e: Entry, id: EntryId)
    requires n < |timeline| && IdOf(e) == IdOf(timeline[n])
    ensures Find(timeline[n := e], id) == Find(timeline, id)
    ensures DistinctIds(timeline) ==> DistinctIds(timeline[n := e])
  {
    if timeline != [] {
      var m := |timeline| - 1;
      if n < m { assert timeline[n := e][..m] == timeline[..m][n := e]; FindReplace(timeline[..m], n, e, id); }
      else { assert timeline[n := e][..m] == timeline[..m]; }
    }
  }

  // ---------------------------------------------------------------- calls of a store

  /**
   One call of a store. `valid` is the verdict of the checks that read nothing of the store: the
   shape of an inbound message, a route and a timestamp, or a JSON payload that can be copied.
   */
  datatype Call =
    | AppendMessageCall(sessionId: SessionId, message: Message, valid: bool)
    | RecordDeliveryCall(sessionId: SessionId, delivery: Delivery, valid: bool)
    | AppendToolCallCall(sessionId: SessionId, toolCall: ToolCall, valid: bool)
    | AppendToolResultCall(sessionId: SessionId, toolResult: ToolResult, valid: bool)

  /** `Refused` is an exception. */
  datatype Reply = Appended | Duplicate | Associated | Done | Refused

  const STRIDE: nat := 1024
}
