/**
 The durable conversation store over its tables. A table is a map from its primary key; an insert
 that would break a key is an exception, which rolls the transaction back.
 */
module SqliteConversations {
  import opened Common
  import opened ConversationFacts

  datatype EntryKey = EntryKey(sessionId: SessionId, index: nat)

  datatype CallKey = CallKey(sessionId: SessionId, runId: string, toolCallId: string)

  datatype MessageRow = MessageRow(sessionId: SessionId, index: nat, observed: Message)

  datatype CallRow = CallRow(toolName: string, index: nat)

  datatype Database = Database(
    sessions: map<SessionId, Metadata>, entries: map<EntryKey, Entry>, messages: map<MessageKey, MessageRow>,
    deliveries: map<MessageKey, Pending>, calls: map<CallKey, CallRow>, results: map<CallKey, CallRow>)

  const EMPTY := Database(map[], map[], map[], map[], map[], map[])

  // ---------------------------------------------------------------- queries

  function IndexesOf(entries: map<EntryKey, Entry>, id: SessionId): set<nat> {
    set k | k in entries && k.sessionId == id :: k.index
  }

  lemma {:induction false} MaxExists(s: set<nat>)
    requires s != {}
    ensures exists m :: m in s && forall x | x in s :: x <= m
  {
    var x :| x in s;
    if s != {x} {
      MaxExists(s - {x});
      var m :| m in s - {x} && forall y | y in s - {x} :: y <= m;
      var n := if m < x then x else m;
      forall y | y in s ensures y <= n { assert y != x ==> y in s - {x}; }
      assert n in s;
    }
  }

  /** `MAX(entry_index)`. */
  function MaxOf(s: set<nat>): (m: nat)
    requires s != {}
    ensures m in s && forall x | x in s :: x <= m
  {
    MaxExists(s);
    var m :| m in s && forall x | x in s :: x <= m;
    m
  }

  /** `COALESCE(MAX(entry_index) + stride, stride)`. */
  function NextIndex(db: Database, id: SessionId): nat {
    var used := IndexesOf(db.entries, id);
    if used == {} then STRIDE else MaxOf(used) + STRIDE
  }

  /** `ORDER BY entry_index ASC`. */
  function Ordered(s: set<nat>): (r: seq<nat>)
    ensures (forall n :: n in s <==> n in r) && forall i, k | 0 <= i < k < |r| :: r[i] < r[k]
  {
    if s == {} then [] else Ordered(s - {MaxOf(s)}) + [MaxOf(s)]
  }

  predicate CanInsert(db: Database, id: SessionId, index: nat) {
    EntryKey(id, index) !in db.entries
  }

  function InsertEntry(db: Database, id: SessionId, index: nat, e: Entry): Database {
    db.(entries := db.entries[EntryKey(id, index) := e])
  }

  function PendingFor(db: Database, key: MessageKey): Option<Pending> {
    if key in db.deliveries then Some(db.deliveries[key]) else None
  }

  /** The entry a message row points to; a dangling row is an exception. */
  function ReadMessage(db: Database, row: MessageRow): (r: Option<Entry>)
    ensures r.Some? ==> r.value.MessageEntry?
  {
    var k := EntryKey(row.sessionId, row.index);
    if k in db.entries && db.entries[k].MessageEntry? then Some(db.entries[k]) else None
  }

  // ---------------------------------------------------------------- operations

  predicate AcceptsMessage(db: Database, id: SessionId, m: Message) {
    !Blank(id) && (id in db.sessions ==> db.sessions[id] == Metadata(m.route, m.contentFormat))
  }

  function AppendKnown(db: Database, id: SessionId, m: Message, row: MessageRow): (Database, Reply) {
    var key := ConversationFacts.KeyOf(m);
    var pending, entry := PendingFor(db, key), ReadMessage(db, row);
    if id != row.sessionId || !SameMessage(row.observed, m) then (db, Refused)
    else if pending.Some? && !PendingMatches(pending.value, id, m.route, m.contentFormat) then (db, Refused)
    else if entry.None? || ((entry.value.outbound.Some? || pending.Some?) && !m.sender.isSelf) then (db, Refused)
    else if pending.None? then (db, Duplicate)
    else if entry.value.outbound.Some? && !SameOutbound(entry.value.outbound.value, pending.value.outbound) then (db, Refused)
    else
      var waited := db.(deliveries := db.deliveries - {key});
      (if entry.value.outbound.Some? then waited
       else InsertEntry(waited, row.sessionId, row.index, entry.value.(outbound := Some(pending.value.outbound))), Associated)
  }

  function AppendMessage(db: Database, id: SessionId, m: Message, valid: bool): (Database, Reply) {
    var key := ConversationFacts.KeyOf(m);
    var pending := PendingFor(db, key);
    if !valid then (db, Refused)
    else if key in db.messages then AppendKnown(db, id, m, db.messages[key])
    else if pending.Some? && (!PendingMatches(pending.value, id, m.route, m.contentFormat) || !m.sender.isSelf) then (db, Refused)
    else if !AcceptsMessage(db, id, m) || !CanInsert(db, id, NextIndex(db, id)) then (db, Refused)
    else
      var index := NextIndex(db, id);
      var e := MessageEntry(key, m, if pending.None? then None else Some(pending.value.outbound));
      (InsertEntry(db, id, index, e).(
         sessions := db.sessions[id := Metadata(m.route, m.contentFormat)],
         messages := db.messages[key := MessageRow(id, index, m)],
         deliveries := db.deliveries - {key}), Appended)
  }

  predicate MetadataFits(db: Database, target: SessionId, d: Delivery) {
    target in db.sessions && db.sessions[target] == Metadata(d.route, d.contentFormat)
  }

  function AssociateKnown(db: Database, target: SessionId, d: Delivery, row: MessageRow): (Database, Reply) {
    var outbound, entry := PendingOf(target, d).outbound, ReadMessage(db, row);
    if target != row.sessionId || !MetadataFits(db, target, d) || entry.None? || !entry.value.observed.sender.isSelf then (db, Refused)
    else if entry.value.outbound.Some? then (db, if SameOutbound(entry.value.outbound.value, outbound) then Done else Refused)
    else (InsertEntry(db, row.sessionId, row.index, entry.value.(outbound := Some(outbound))), Done)
  }

  function RecordDelivery(db: Database, target: SessionId, d: Delivery, valid: bool): (Database, Reply) {
    if !ValidDelivery(target, d, valid) || CallKey(d.sourceSessionId, d.runId, d.toolCallId) !in db.calls then (db, Refused)
    else if d.receipt in db.messages then AssociateKnown(db, target, d, db.messages[d.receipt])
    else if target in db.sessions && !MetadataFits(db, target, d) then (db, Refused)
    else if d.receipt in db.deliveries then (db, if SamePending(db.deliveries[d.receipt], PendingOf(target, d)) then Done else Refused)
    else (db.(deliveries := db.deliveries[d.receipt := PendingOf(target, d)]), Done)
  }

  function AppendToolCall(db: Database, id: SessionId, call: ToolCall, valid: bool): (Database, Reply) {
    var key, index := CallKey(id, call.runId, call.toolCallId), NextIndex(db, id);
    if !NamesCall(call.runId, call.toolCallId, call.toolName) || !OnePayload(call) || id !in db.sessions || key in db.calls || !valid
       || !CanInsert(db, id, index)
    then (db, Refused)
    else (InsertEntry(db, id, index, CallEntry(call)).(calls := db.calls[key := CallRow(call.toolName, index)]), Done)
  }

  function AppendToolResult(db: Database, id: SessionId, result: ToolResult, valid: bool): (Database, Reply) {
    var key := CallKey(id, result.runId, result.toolCallId);
    if !NamesCall(result.runId, result.toolCallId, result.toolName) || id !in db.sessions || key !in db.calls then (db, Refused)
    else
      var call := db.calls[key];
      if call.toolName != result.toolName || key in db.results || !valid || !CanInsert(db, id, call.index + 1) then (db, Refused)
      else
        (InsertEntry(db, id, call.index + 1, ResultEntry(result)).(
           results := db.results[key := CallRow(result.toolName, call.index + 1)]), Done)
  }

  function Perform(db: Database, c: Call): (Database, Reply) {
    match c
    case AppendMessageCall(id, m, valid) => AppendMessage(db, id, m, valid)
    case RecordDeliveryCall(id, d, valid) => RecordDelivery(db, id, d, valid)
    case AppendToolCallCall(id, call, valid) => AppendToolCall(db, id, call, valid)
    case AppendToolResultCall(id, result, valid) => AppendToolResult(db, id, result, valid)
  }

  function Run(db: Database, calls: seq<Call>): Database {
    if calls == [] then db else Perform(Run(db, calls[..|calls| - 1]), calls[|calls| - 1]).0
  }

  /** The rows of a session in index order. */
  function Rows(db: Database, id: SessionId): seq<Entry> {
    var order := Ordered(IndexesOf(db.entries, id));
    seq(|order|, i requires 0 <= i < |order| =>
      assert order[i] in order;
      RowAt(db, id, order[i]))
  }

  function RowAt(db: Database, id: SessionId, index: nat): Entry
    requires index in IndexesOf(db.entries, id)
  {
    assert EntryKey(id, index) in db.entries by { IndexRow(db.entries, id, index); }
    db.entries[EntryKey(id, index)]
  }

  lemma IndexRow(entries: map<EntryKey, Entry>, id: SessionId, index: nat)
    ensures index in IndexesOf(entries, id) <==> EntryKey(id, index) in entries
  {
    if EntryKey(id, index) in entries { assert EntryKey(id, index).index in IndexesOf(entries, id); }
    if index in IndexesOf(entries, id) { var k :| k in entries && k.sessionId == id && k.index == index; assert k == EntryKey(id, index); }
  }

  lemma LastIsMax(s: set<nat>, r: seq<nat>)
    requires r != [] && (forall n :: n in s <==> n in r) && forall i, k | 0 <= i < k < |r| :: r[i] < r[k]
    ensures s != {} && MaxOf(s) == r[|r| - 1]
  {
    assert r[|r| - 1] in s;
    assert MaxOf(s) in r;
  }

  /** An increasing list of a set is the ordered list. */
  lemma {:induction false} OrderedUnique(s: set<nat>, r: seq<nat>)
    requires (forall n :: n in s <==> n in r) && forall i, k | 0 <= i < k < |r| :: r[i] < r[k]
    ensures Ordered(s) == r
    decreases |r|
  {
    if r == [] {
      assert s == {};
    } else {
      hide MaxOf;
      var n := |r| - 1;
      LastIsMax(s, r);
      assert forall x :: x in s - {r[n]} <==> x in r[..n];
      OrderedUnique(s - {r[n]}, r[..n]);
      assert r == r[..n] + [r[n]];
    }
  }

  // ---------------------------------------------------------------- the store object

  class SqliteConversationSessionStore {
    var sessions: map<SessionId, Metadata>
    var entries: map<EntryKey, Entry>
    var messages: map<MessageKey, MessageRow>
    var deliveries: map<MessageKey, Pending>
    var calls: map<CallKey, CallRow>
    var results: map<CallKey, CallRow>

    function State(): Database
      reads this
    {
      Database(sessions, entries, messages, deliveries, calls, results)
    }

    constructor ()
      ensures State() == EMPTY
    {
      sessions, entries, messages, deliveries, calls, results := map[], map[], map[], map[], map[], map[];
    }

    /** The session row, its entry and its message row are written in turn; a late failure rolls the first ones back. */
    method AppendChannelMessage(id: SessionId, m: Message, valid: bool) returns (r: Reply)
      modifies this
      ensures (State(), r) == AppendMessage(old(State()), id, m, valid)
    {
      hide SameMessage, SameOutbound, IndexesOf;
      if !valid { return Refused; }
      var key := ConversationFacts.KeyOf(m);
      if key in messages {
        r := AppendKnownMessage(id, m, messages[key]);
        return;
      }
      var pending := PendingFor(State(), key);
      if pending.Some? && (!PendingMatches(pending.value, id, m.route, m.contentFormat) || !m.sender.isSelf) { return Refused; }
      if Blank(id) { return Refused; }
      ghost var before := State();
      var sessionsBefore := sessions;
      if id !in sessions {
        sessions := sessions[id := Metadata(m.route, m.contentFormat)];
      } else if sessions[id] != Metadata(m.route, m.contentFormat) {
        return Refused;
      }
      var index := NextIndex(State(), id);
      assert index == NextIndex(before, id);
      if EntryKey(id, index) in entries {
        sessions := sessionsBefore;
        return Refused;
      }
      assert sessions == before.sessions[id := Metadata(m.route, m.contentFormat)];
      entries := entries[EntryKey(id, index) := MessageEntry(key, m, if pending.None? then None else Some(pending.value.outbound))];
      messages := messages[key := MessageRow(id, index, m)];
      deliveries := deliveries - {key};
      return Appended;
    }

    method AppendKnownMessage(id: SessionId, m: Message, row: MessageRow) returns (r: Reply)
      modifies this
      ensures (State(), r) == AppendKnown(old(State()), id, m, row)
    {
      hide SameMessage, SameOutbound;
      if id != row.sessionId || !SameMessage(row.observed, m) { return Refused; }
      var key := ConversationFacts.KeyOf(m);
      var pending := PendingFor(State(), key);
      if pending.Some? && !PendingMatches(pending.value, id, m.route, m.contentFormat) { return Refused; }
      var entry := ReadMessage(State(), row);
      if entry.None? { return Refused; }
      if (entry.value.outbound.Some? || pending.Some?) && !m.sender.isSelf { return Refused; }
      if pending.None? { return Duplicate; }
      if entry.value.outbound.Some? {
        if !SameOutbound(entry.value.outbound.value, pending.value.outbound) { return Refused; }
      } else {
        entries := entries[EntryKey(row.sessionId, row.index) := entry.value.(outbound := Some(pending.value.outbound))];
      }
      deliveries := deliveries - {key};
      return Associated;
    }

    method RecordOutboundDelivery(target: SessionId, d: Delivery, valid: bool) returns (r: Reply)
      modifies this
      ensures (State(), r) == RecordDelivery(old(State()), target, d, valid)
    {
      hide SameOutbound, SamePending, ValidDelivery;
      if !ValidDelivery(target, d, valid) { return Refused; }
      if CallKey(d.sourceSessionId, d.runId, d.toolCallId) !in calls { return Refused; }
      var pending := PendingOf(target, d);
      if d.receipt in messages {
        var row := messages[d.receipt];
        if target != row.sessionId || !MetadataFits(State(), target, d) { return Refused; }
        var entry := ReadMessage(State(), row);
        if entry.None? || !entry.value.observed.sender.isSelf { return Refused; }
        if entry.value.outbound.Some? {
          return if SameOutbound(entry.value.outbound.value, pending.outbound) then Done else Refused;
        }
        entries := entries[EntryKey(row.sessionId, row.index) := entry.value.(outbound := Some(pending.outbound))];
        return Done;
      }
      if target in sessions && !MetadataFits(State(), target, d) { return Refused; }
      if d.receipt in deliveries { return if SamePending(deliveries[d.receipt], pending) then Done else Refused; }
      deliveries := deliveries[d.receipt := pending];
      return Done;
    }

    method AppendAgentToolCall(id: SessionId, call: ToolCall, valid: bool) returns (r: Reply)
      modifies this`entries, this`calls
      ensures (State(), r) == AppendToolCall(old(State()), id, call, valid)
    {
      hide NextIndex;
      if !NamesCall(call.runId, call.toolCallId, call.toolName) || !OnePayload(call) { return Refused; }
      if id !in sessions { return Refused; }
      var key := CallKey(id, call.runId, call.toolCallId);
      if key in calls || !valid { return Refused; }
      var index := NextIndex(State(), id);
      if EntryKey(id, index) in entries { return Refused; }
      entries := entries[EntryKey(id, index) := CallEntry(call)];
      calls := calls[key := CallRow(call.toolName, index)];
      return Done;
    }

    method AppendAgentToolResult(id: SessionId, result: ToolResult, valid: bool) returns (r: Reply)
      modifies this`entries, this`results
      ensures (State(), r) == AppendToolResult(old(State()), id, result, valid)
    {
      if !NamesCall(result.runId, result.toolCallId, result.toolName) { return Refused; }
      if id !in sessions { return Refused; }
      var key := CallKey(id, result.runId, result.toolCallId);
      if key !in calls { return Refused; }
      var call := calls[key];
      if call.toolName != result.toolName || key in results || !valid { return Refused; }
      if EntryKey(id, call.index + 1) in entries { return Refused; }
      entries := entries[EntryKey(id, call.index + 1) := ResultEntry(result)];
      results := results[key := CallRow(result.toolName, call.index + 1)];
      return Done;
    }
  }
}
