/**
 The projection of a session window into one canonical JSON text. It sorts by entry index, so the
 text does not depend on the order of the window, and both stores project to the same text.
 */
module ConversationContext {
  import opened Common
  import opened SessionKey
  import opened CanonicalJson
  import opened ConversationFacts
  import opened ConversationIndexes
  import M = InMemoryConversations
  import Q = SqliteConversations
  import ConversationStores

  datatype Placed = Placed(index: int, entry: Entry)

  datatype Summary = Summary(text: string, throughEntryIndex: int)

  datatype Window = Window(metadata: Metadata, summary: Option<Summary>, entries: seq<Placed>)

  const MAX_SAFE_INTEGER: int := 9007199254740991

  predicate SafeIndex(n: int) {
    0 <= n <= MAX_SAFE_INTEGER
  }

  // ---------------------------------------------------------------- the JSON value

  function Member(name: string, value: Option<Json>): seq<Field> {
    if value.None? then [] else [Field(name, value.value)]
  }

  function TextOption(text: Option<string>): Option<Json> {
    if text.None? then None else Some(Text(text.value))
  }

  function RouteJson(r: Route): Json {
    Obj([Field("channelId", Text(r.channelId)), Field("conversationKind", Text(KindText(r.conversationKind))),
         Field("conversationId", Text(r.conversationId))] + Member("threadId", TextOption(r.threadId)))
  }

  function SenderJson(s: Sender): Json {
    Obj([Field("id", Text(s.id)), Field("username", Text(s.username))] + Member("displayName", TextOption(s.displayName))
        + [Field("isSelf", Bool(s.isSelf))])
  }

  function OmittedJson(o: Option<Omitted>): Option<Json> {
    if o.None? then None
    else Some(Obj([Field("reason", Text(o.value.reason)), Field("originalSizeBytes", Number(o.value.originalSizeBytes))]))
  }

  function TriggerJson(trigger: Option<string>): Option<Json> {
    if trigger.None? then None else Some(Obj([Field("kind", Text(trigger.value))]))
  }

  function OutboundJson(o: Option<Outbound>): Option<Json> {
    if o.None? then None
    else Some(Obj([Field("sentAt", Text(o.value.sentAt)), Field("runId", Text(o.value.runId)), Field("toolCallId", Text(o.value.toolCallId)),
                   Field("sourceSessionId", Text(o.value.sourceSessionId)),
                   Field("origin", Text(if o.value.origin == CurrentSession then "current_session" else "cross_session"))]))
  }

  /** The projected entry; a tool call without arguments is an exception. */
  function EntryJson(e: Entry): Option<Json> {
    match e
    case MessageEntry(key, m, outbound) =>
      Some(Obj([Field("type", Text("channel_message")), Field("messageId", Text(key.messageId)), Field("sender", SenderJson(m.sender)),
                Field("receivedAt", Text(m.receivedAt)), Field("content", Text(m.content))]
               + Member("contentOmitted", OmittedJson(m.contentOmitted)) + Member("replyToMessageId", TextOption(m.replyToMessageId))
               + Member("trigger", TriggerJson(m.trigger)) + Member("outbound", OutboundJson(outbound))))
    case CallEntry(call) =>
      var identity := [Field("type", Text("agent_tool_call")), Field("runId", Text(call.runId)),
                       Field("toolCallId", Text(call.toolCallId)), Field("toolName", Text(call.toolName))];
      if call.rawArguments.Some? then Some(Obj(identity + [Field("rawArguments", Text(call.rawArguments.value))]))
      else if call.arguments.Some? then Some(Obj(identity + [Field("arguments", call.arguments.value)]))
      else None
    case ResultEntry(r) =>
      Some(Obj([Field("type", Text("agent_tool_result")), Field("runId", Text(r.runId)), Field("toolCallId", Text(r.toolCallId)),
                Field("toolName", Text(r.toolName)), Field("output", r.output)]))
  }

  function EntriesJson(entries: seq<Placed>): Option<seq<Json>> {
    if entries == [] then Some([])
    else
      var n := |entries| - 1;
      match (EntriesJson(entries[..n]), EntryJson(entries[n].entry))
      case (Some(before), Some(last)) => Some(before + [last])
      case _ => None
  }

  function MetadataJson(m: Metadata): Json {
    Obj([Field("kind", Text("external_channel")), Field("route", RouteJson(m.route)), Field("contentFormat", Text(m.contentFormat))])
  }

  function SummaryJson(s: Option<Summary>): Option<Json> {
    if s.None? then None else Some(Obj([Field("text", Text(s.value.text))]))
  }

  function ContextText(w: Window, sorted: seq<Placed>): Option<string> {
    match EntriesJson(sorted)
    case None => None
    case Some(items) =>
      Some(Canonical(Obj([Field("metadata", MetadataJson(w.metadata))] + Member("summary", SummaryJson(w.summary)) + [Field("entries", Arr(items))])))
  }

  // ---------------------------------------------------------------- the projection

  predicate CursorOk(w: Window) {
    w.summary.Some? ==> SafeIndex(w.summary.value.throughEntryIndex)
  }

  predicate EntryIndexOk(w: Window, p: Placed) {
    SafeIndex(p.index) && (w.summary.Some? ==> p.index > w.summary.value.throughEntryIndex)
  }

  function InsertByIndex(p: Placed, sorted: seq<Placed>): seq<Placed> {
    if sorted == [] || p.index < sorted[0].index then [p] + sorted else [sorted[0]] + InsertByIndex(p, sorted[1..])
  }

  /** The stable sort by entry index. */
  function SortByIndex(entries: seq<Placed>): seq<Placed> {
    if entries == [] then [] else InsertByIndex(entries[|entries| - 1], SortByIndex(entries[..|entries| - 1]))
  }

  predicate UniqueNeighbours(sorted: seq<Placed>) {
    forall i | 0 < i < |sorted| :: sorted[i - 1].index != sorted[i].index
  }

  function Project(w: Window): Option<string> {
    var sorted := SortByIndex(w.entries);
    if !CursorOk(w) || (exists p | p in w.entries :: !EntryIndexOk(w, p)) || !UniqueNeighbours(sorted) then None
    else ContextText(w, sorted)
  }

  /** The check loop over neighbouring indexes. */
  method CheckUnique(sorted: seq<Placed>) returns (ok: bool)
    ensures ok <==> UniqueNeighbours(sorted)
  {
    var i := 1;
    while i < |sorted|
      invariant 1 <= i
      invariant forall k | 0 < k < i && k < |sorted| :: sorted[k - 1].index != sorted[k].index
    {
      if sorted[i - 1].index == sorted[i].index { return false; }
      i := i + 1;
    }
    return true;
  }

  // ---------------------------------------------------------------- order does not matter

  predicate Rising(sorted: seq<Placed>) {
    forall i, k | 0 <= i < k < |sorted| :: sorted[i].index <= sorted[k].index
  }

  lemma {:induction false} InsertKeeps(p: Placed, sorted: seq<Placed>)
    ensures multiset(InsertByIndex(p, sorted)) == multiset(sorted) + multiset{p}
  {
    if sorted != [] && sorted[0].index <= p.index {
      InsertKeeps(p, sorted[1..]);
      assert sorted == [sorted[0]] + sorted[1..];
    }
  }

  lemma {:induction false} InsertMembers(p: Placed, sorted: seq<Placed>)
    ensures forall x :: x in InsertByIndex(p, sorted) <==> x == p || x in sorted
  {
    if sorted != [] && sorted[0].index <= p.index {
      InsertMembers(p, sorted[1..]);
      assert sorted == [sorted[0]] + sorted[1..];
    }
  }

  lemma {:induction false} InsertRises(p: Placed, sorted: seq<Placed>)
    requires Rising(sorted)
    ensures Rising(InsertByIndex(p, sorted))
  {
    if sorted != [] && sorted[0].index <= p.index {
      InsertRises(p, sorted[1..]);
      InsertMembers(p, sorted[1..]);
      var rest := InsertByIndex(p, sorted[1..]);
      forall k | 0 <= k < |rest| ensures sorted[0].index <= rest[k].index {
        assert rest[k] in rest;
      }
    }
  }

  lemma {:induction false} SortRises(entries: seq<Placed>)
    ensures Rising(SortByIndex(entries)) && multiset(SortByIndex(entries)) == multiset(entries)
  {
    if entries != [] {
      var n := |entries| - 1;
      SortRises(entries[..n]);
      InsertRises(entries[n], SortByIndex(entries[..n]));
      InsertKeeps(entries[n], SortByIndex(entries[..n]));
      assert entries == entries[..n] + [entries[n]];
    }
  }

  /** A rising list whose neighbours differ rises strictly. */
  predicate Strict(sorted: seq<Placed>) {
    forall i, k | 0 <= i < k < |sorted| :: sorted[i].index < sorted[k].index
  }

  lemma NeighboursStrict(a: seq<Placed>)
    requires Rising(a)
    ensures UniqueNeighbours(a) <==> Strict(a)
  {
    if UniqueNeighbours(a) {
      forall i, k | 0 <= i < k < |a| ensures a[i].index < a[k].index {
        assert a[i].index <= a[i + 1].index <= a[k].index && a[i + 1 - 1].index != a[i + 1].index;
      }
    }
  }

  /** A strictly rising list is the only rising list of its entries. */
  lemma {:induction false} RisingUnique(a: seq<Placed>, b: seq<Placed>)
    requires Strict(a) && Rising(b) && multiset(a) == multiset(b)
    ensures a == b
  {
    assert |a| == |multiset(a)| && |b| == |multiset(b)|;
    if a != [] {
      SameFirst(a, b);
      assert a == [a[0]] + a[1..] && b == [b[0]] + b[1..];
      assert multiset(a[1..]) == multiset(a) - multiset{a[0]};
      assert multiset(b[1..]) == multiset(b) - multiset{b[0]};
      RisingUnique(a[1..], b[1..]);
    }
  }

  lemma SameFirst(a: seq<Placed>, b: seq<Placed>)
    requires Strict(a) && Rising(b) && multiset(a) == multiset(b) && a != [] && b != []
    ensures a[0] == b[0]
  {
    assert a[0] in multiset(b) && b[0] in multiset(a);
    var i :| 0 <= i < |b| && b[i] == a[0];
    var k :| 0 <= k < |a| && a[k] == b[0];
    assert b[0].index <= b[i].index;
    assert a[0].index <= a[k].index;
  }

  /** A window projects to the same text, or is refused, in every order of its entries. */
  lemma OrderDoesNotMatter(w: Window, v: Window)
    requires w.metadata == v.metadata && w.summary == v.summary && multiset(w.entries) == multiset(v.entries)
    ensures Project(w) == Project(v)
  {
    hide ContextText;
    var a, b := SortByIndex(w.entries), SortByIndex(v.entries);
    SortRises(w.entries);
    SortRises(v.entries);
    hide SortByIndex;
    assert forall p :: p in w.entries <==> p in v.entries by {
      assert forall p :: p in w.entries <==> p in multiset(w.entries);
      assert forall p :: p in v.entries <==> p in multiset(v.entries);
    }
    assert forall p :: EntryIndexOk(w, p) == EntryIndexOk(v, p);
    NeighboursStrict(a);
    NeighboursStrict(b);
    if Strict(a) { RisingUnique(a, b); }
    if Strict(b) { RisingUnique(b, a); }
    hide UniqueNeighbours, EntryIndexOk;
    SameText(w, v, a);
  }

  lemma SameText(w: Window, v: Window, sorted: seq<Placed>)
    requires w.metadata == v.metadata && w.summary == v.summary
    ensures ContextText(w, sorted) == ContextText(v, sorted)
  {
    hide EntriesJson, MetadataJson, Canonical;
  }

  // ---------------------------------------------------------------- both stores

  /** The window an index list and a timeline make; stores write no summaries. */
  function WindowOf(metadata: Metadata, indexes: seq<nat>, timeline: seq<Entry>): Window
    requires |indexes| == |timeline|
  {
    Window(metadata, None, seq(|timeline|, i requires 0 <= i < |timeline| => Placed(indexes[i], timeline[i])))
  }

  lemma {:induction false} EntriesIgnoreIndexes(a: seq<Placed>, b: seq<Placed>)
    requires |a| == |b| && forall i | 0 <= i < |a| :: a[i].entry == b[i].entry
    ensures EntriesJson(a) == EntriesJson(b)
  {
    if a != [] { EntriesIgnoreIndexes(a[..|a| - 1], b[..|b| - 1]); }
  }

  /** A window in strictly rising order projects to its entries as they stand. */
  lemma OrderedProjects(metadata: Metadata, indexes: seq<nat>, timeline: seq<Entry>)
    requires |indexes| == |timeline| && M.Increases(indexes)
    ensures var w := WindowOf(metadata, indexes, timeline);
            Project(w) == if forall n | n in indexes :: SafeIndex(n) then ContextText(w, w.entries) else None
  {
    hide ContextText;
    var w := WindowOf(metadata, indexes, timeline);
    SortRises(w.entries);
    assert Strict(w.entries);
    RisingUnique(w.entries, SortByIndex(w.entries));
    NeighboursStrict(w.entries);
    hide SortByIndex;
    forall p | p in w.entries ensures p.index in indexes { var i :| 0 <= i < |w.entries| && w.entries[i] == p; assert indexes[i] == p.index; }
    forall n | n in indexes ensures exists p :: p in w.entries && p.index == n {
      var i :| 0 <= i < |indexes| && indexes[i] == n;
      assert w.entries[i] in w.entries && w.entries[i].index == n;
    }
  }

  predicate AllSafe(indexes: seq<nat>) {
    forall n | n in indexes :: SafeIndex(n)
  }

  /** Indexes rise, so the last one decides whether all are safe; lower indexes are safe with the higher ones. */
  lemma LastDecides(indexes: seq<nat>)
    requires M.Increases(indexes)
    ensures AllSafe(indexes) <==> indexes == [] || SafeIndex(indexes[|indexes| - 1])
  {
    forall n | n in indexes ensures n <= indexes[|indexes| - 1] { var i :| 0 <= i < |indexes| && indexes[i] == n; }
  }

  lemma LowerIsSafe(low: seq<nat>, high: seq<nat>)
    requires |low| == |high| && forall i | 0 <= i < |high| :: low[i] <= high[i]
    ensures AllSafe(high) ==> AllSafe(low)
  {
    if AllSafe(high) {
      forall n | n in low ensures SafeIndex(n) {
        var i :| 0 <= i < |low| && low[i] == n;
        assert high[i] in high;
      }
    }
  }

  /**
   After any sequence of calls both stores project a session to the same context text, although their
   windows carry different indexes, until the last durable index is no longer a safe integer. From then
   on the window of the durable store is refused; that of the in-memory store is refused once its own
   last index is unsafe, which is never earlier.
   */
  lemma ContextsAgree(calls: seq<Call>, id: SessionId)
    requires id in M.Run(M.EMPTY, calls).sessions
    ensures var s, db := M.Run(M.EMPTY, calls), Q.Run(Q.EMPTY, calls);
            && id in db.sessions && |s.sessions[id].indexes| == |s.sessions[id].timeline| && |ConversationStores.OrderOf(db, id)| == |Q.Rows(db, id)|
            && var low, high := s.sessions[id].indexes, ConversationStores.OrderOf(db, id);
               var memory := Project(WindowOf(s.sessions[id].metadata, low, s.sessions[id].timeline));
               var durable := Project(WindowOf(db.sessions[id], high, Q.Rows(db, id)));
            && durable == (if AllSafe(high) then memory else None)
            && (!AllSafe(low) ==> memory == None && !AllSafe(high))
            && (AllSafe(low) <==> low == [] || SafeIndex(low[|low| - 1])) && (AllSafe(high) <==> high == [] || SafeIndex(high[|high| - 1]))
  {
    hide M.Run, Q.Run, Q.Rows, ConversationStores.OrderOf, Project, ContextText, M.Ok, Find, AllSafe;
    var s, db := M.Run(M.EMPTY, calls), Q.Run(Q.EMPTY, calls);
    var session, ix := s.sessions[id], ConversationStores.OrderOf(db, id);
    ConversationStores.StoresAgree(calls, RecordDeliveryCall(id, AnyDelivery(id), false), id);
    IndexFacts(calls, id);
    OrderedText(session.metadata, session.indexes, session.timeline);
    OrderedText(session.metadata, ix, session.timeline);
    var w, v := WindowOf(session.metadata, session.indexes, session.timeline), WindowOf(session.metadata, ix, session.timeline);
    EntriesIgnoreIndexes(w.entries, v.entries);
    TextOfEntries(w, v);
    MemoryIndexesAreLower(calls, id);
    LowerIsSafe(session.indexes, ix);
    LastDecides(session.indexes);
    LastDecides(ix);
  }

  lemma OrderedText(metadata: Metadata, indexes: seq<nat>, timeline: seq<Entry>)
    requires |indexes| == |timeline| && M.Increases(indexes)
    ensures var w := WindowOf(metadata, indexes, timeline);
            Project(w) == if AllSafe(indexes) then ContextText(w, w.entries) else None
  {
    hide Project, ContextText;
    OrderedProjects(metadata, indexes, timeline);
  }

  function AnyDelivery(id: SessionId): Delivery {
    Delivery(Route("", Direct, "", None), "", MessageKey("", ""), "", "", "", id)
  }

  lemma TextOfEntries(w: Window, v: Window)
    requires w.metadata == v.metadata && w.summary == v.summary && EntriesJson(w.entries) == EntriesJson(v.entries)
    ensures ContextText(w, w.entries) == ContextText(v, v.entries)
  {
    hide EntriesJson, MetadataJson, Canonical;
  }

  lemma IndexFacts(calls: seq<Call>, id: SessionId)
    requires id in M.Run(M.EMPTY, calls).sessions
    ensures var s, db := M.Run(M.EMPTY, calls), Q.Run(Q.EMPTY, calls);
            var session, ix := s.sessions[id], ConversationStores.OrderOf(db, id);
            |session.indexes| == |session.timeline| == |ix| && M.Increases(session.indexes) && M.Increases(ix)
  {
    hide M.Run, Q.Run, ConversationStores.OrderOf, M.Ok, Find, M.Spaced, DistinctIds;
    var s, db := M.Run(M.EMPTY, calls), Q.Run(Q.EMPTY, calls);
    M.RunOk(calls);
    ConversationStores.RunSimulates(calls);
    M.OneSession(s, id);
    assert ConversationStores.SessionRel(s.sessions[id], db, id);
    M.SpacedIncreases(s.sessions[id].timeline, s.sessions[id].indexes);
    M.SpacedIncreases(s.sessions[id].timeline, ConversationStores.OrderOf(db, id));
    M.SpacedLength(s.sessions[id].timeline, s.sessions[id].indexes);
    M.SpacedLength(s.sessions[id].timeline, ConversationStores.OrderOf(db, id));
  }
}
