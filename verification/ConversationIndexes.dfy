/**
 How the two stores number the same timeline: the in-memory index of an entry is never greater than
 its durable one, because a counter moves by the stride alone while the greatest row may be a result.
 */
module ConversationIndexes {
  import opened Common
  import opened ConversationFacts
  import opened ConversationStores
  import M = InMemoryConversations
  import Q = SqliteConversations

  /** The index after the last one of an order. */
  function NextOf(order: seq<nat>): nat {
    if order == [] then STRIDE else order[|order| - 1] + STRIDE
  }

  ghost predicate Under(s: M.Session, order: seq<nat>) {
    && |s.indexes| == |order| && s.next <= NextOf(order)
    && forall i | 0 <= i < |order| :: s.indexes[i] <= order[i]
  }

  ghost predicate Below(s: M.Store, db: Q.Database) {
    forall id | id in s.sessions :: Under(s.sessions[id], OrderOf(db, id))
  }

  // ---------------------------------------------------------------- one session

  lemma UnderAppend(s: M.Session, order: seq<nat>, e: Entry)
    requires Under(s, order)
    ensures Under(M.AppendEntry(s, e), order + [NextOf(order)])
  {
  }

  lemma UnderPlace(s: M.Session, order: seq<nat>, at: nat, e: Entry)
    requires Under(s, order) && at < |s.timeline| && at < |order| && M.Increases(order)
    ensures Under(M.PlaceResult(s, at, e), M.Placed(order, at))
  {
    var a, b := M.Placed(s.indexes, at), M.Placed(order, at);
    hide M.Placed, InsertAt, NextOf;
    M.PlacedAt(s.indexes, at, 0);
    M.PlacedAt(order, at, 0);
    forall i | 0 <= i < |b| ensures a[i] <= b[i] {
      M.PlacedAt(s.indexes, at, i);
      M.PlacedAt(order, at, i);
    }
    LastPlaced(order, at);
  }

  lemma LastPlaced(order: seq<nat>, at: nat)
    requires at < |order| && M.Increases(order)
    ensures NextOf(order) <= NextOf(M.Placed(order, at))
  {
  }

  lemma NextIs(db: Q.Database, id: SessionId)
    ensures Q.NextIndex(db, id) == NextOf(OrderOf(db, id)) && M.Increases(OrderOf(db, id))
  {
    var used, order := Q.IndexesOf(db.entries, id), OrderOf(db, id);
    hide Q.IndexesOf, Q.Ordered, Q.MaxOf;
    if order == [] {
      assert forall n :: n !in used;
      assert used == {};
    } else {
      Q.LastIsMax(used, order);
    }
  }

  /** A new row behind all others, in an order that is otherwise the same. */
  lemma OrderGrows(db: Q.Database, db': Q.Database, id: SessionId, e: Entry)
    requires db'.entries == db.entries[Q.EntryKey(id, Q.NextIndex(db, id)) := e]
    ensures OrderOf(db', id) == OrderOf(db, id) + [NextOf(OrderOf(db, id))]
  {
    NextIs(db, id);
    var order := OrderOf(db, id);
    forall n ensures Q.EntryKey(id, n) in db.entries <==> n in order { Q.IndexRow(db.entries, id, n); }
    hide OrderOf, Q.IndexesOf, Q.Ordered;
    OrderAfter(db.entries, db'.entries, id, order + [NextOf(order)]);
    assert OrderOf(db', id) == Q.Ordered(Q.IndexesOf(db'.entries, id)) by { OrderIsOrdered(db', id); }
  }

  lemma OrderIsOrdered(db: Q.Database, id: SessionId)
    ensures OrderOf(db, id) == Q.Ordered(Q.IndexesOf(db.entries, id))
  {
  }

  // ---------------------------------------------------------------- stores

  /** Only one session changes. */
  lemma OneChanges(s: M.Store, s': M.Store, db: Q.Database, db': Q.Database, id: SessionId)
    requires Below(s, db) && id in s'.sessions && s'.sessions == s.sessions[id := s'.sessions[id]]
    requires forall k: Q.EntryKey | k.sessionId != id :: k in db'.entries <==> k in db.entries
    requires Under(s'.sessions[id], OrderOf(db', id))
    ensures Below(s', db')
  {
    hide Under, OrderOf;
    forall other | other in s'.sessions ensures Under(s'.sessions[other], OrderOf(db', other)) {
      if other != id { OrderSame(db, db', other); }
    }
  }

  /** The entries of every session keep their indexes. */
  lemma NoneMoves(s: M.Store, s': M.Store, db: Q.Database, db': Q.Database)
    requires Below(s, db) && s'.sessions.Keys == s.sessions.Keys && db'.entries.Keys == db.entries.Keys
    requires forall id | id in s.sessions :: s'.sessions[id].indexes == s.sessions[id].indexes && s'.sessions[id].next == s.sessions[id].next
    ensures Below(s', db')
  {
    hide OrderOf;
    forall id | id in s'.sessions ensures Under(s'.sessions[id], OrderOf(db', id)) {
      OrderSame(db, db', id);
      assert Under(s.sessions[id], OrderOf(db, id));
    }
  }

  /** An entry goes to the end of a session, which may be new. */
  lemma AppendBelow(s: M.Store, s': M.Store, db: Q.Database, db': Q.Database, id: SessionId, session: M.Session, e: Entry)
    requires Below(s, db) && (if id in s.sessions then session == s.sessions[id] else session.indexes == [] && session.next == STRIDE)
    requires id !in s.sessions ==> OrderOf(db, id) == []
    requires s'.sessions == s.sessions[id := M.AppendEntry(session, e)]
    requires db'.entries == db.entries[Q.EntryKey(id, Q.NextIndex(db, id)) := e]
    ensures Below(s', db')
  {
    hide OrderOf, M.AppendEntry, Q.NextIndex;
    OrderGrows(db, db', id, e);
    UnderAppend(session, OrderOf(db, id), e);
    OneChanges(s, s', db, db', id);
  }

  lemma NewIsEmpty(s: M.Store, db: Q.Database, id: SessionId)
    requires SessionsRel(s, db) && id !in s.sessions
    ensures OrderOf(db, id) == []
  {
    hide SessionRel;
    assert forall n :: Q.EntryKey(id, n) !in db.entries by { assert forall n :: Q.EntryKey(id, n).sessionId == id; }
    OrderAfter(db.entries, db.entries, id, []);
  }

  lemma MessageBelow(s: M.Store, db: Q.Database, id: SessionId, m: Message, valid: bool)
    requires M.Ok(s) && Rel(s, db) && Below(s, db)
    ensures Below(M.AppendMessage(s, id, m, valid).0, Q.AppendMessage(db, id, m, valid).0)
  {
    hide M.Ok, SessionsRel, MessagesRel, Below, OrderOf, Find, SameMessage, PendingMatches, Q.NextIndex, M.AppendEntry, M.EnsureSession, Q.AcceptsMessage,
         Q.CanInsert, Blank, Q.ReadMessage, M.ReplaceEntry;
    var key := ConversationFacts.KeyOf(m);
    AppendMessageSimulates(s, db, id, m, valid);
    var (s', r) := M.AppendMessage(s, id, m, valid);
    var (db', q) := Q.AppendMessage(db, id, m, valid);
    if r == Appended {
      var session := M.EnsureSession(s, id, m).value;
      var pending := M.PendingFor(s, key);
      var e := MessageEntry(key, m, if pending.None? then None else Some(pending.value.outbound));
      EnsuredIndexes(s, id, m);
      if id !in s.sessions { NewIsEmpty(s, db, id); }
      AppendedMessage(s, db, id, m, valid, e, session);
      AppendBelow(s, s', db, db', id, session, e);
    } else {
      M.AppendMessageOk(s, id, m, valid);
      RefusedInMemory(s, AppendMessageCall(id, m, valid));
      RefusedInDatabase(db, AppendMessageCall(id, m, valid));
      MessageReplies(s, id, m, valid);
    }
  }

  lemma MessageReplies(s: M.Store, id: SessionId, m: Message, valid: bool)
    ensures M.AppendMessage(s, id, m, valid).1 in {Appended, Duplicate, Associated, Refused}
  {
    hide Find, M.ReplaceEntry, M.AppendEntry, M.EnsureSession, SameMessage, PendingMatches, SameOutbound;
  }

  lemma EnsuredIndexes(s: M.Store, id: SessionId, m: Message)
    requires M.EnsureSession(s, id, m).Some?
    ensures var session := M.EnsureSession(s, id, m).value;
            if id in s.sessions then session == s.sessions[id] else session.indexes == [] && session.next == STRIDE
  {
  }

  /** What an appended message adds to both stores. */
  lemma AppendedMessage(s: M.Store, db: Q.Database, id: SessionId, m: Message, valid: bool, e: Entry, session: M.Session)
    requires M.Ok(s) && Rel(s, db)
    requires M.AppendMessage(s, id, m, valid).1 == Appended && Q.AppendMessage(db, id, m, valid).1 == Appended
    requires M.EnsureSession(s, id, m) == Some(session)
    requires var pending := M.PendingFor(s, ConversationFacts.KeyOf(m));
             e == MessageEntry(ConversationFacts.KeyOf(m), m, if pending.None? then None else Some(pending.value.outbound))
    ensures M.AppendMessage(s, id, m, valid).0.sessions == s.sessions[id := M.AppendEntry(session, e)]
    ensures Q.AppendMessage(db, id, m, valid).0.entries == db.entries[Q.EntryKey(id, Q.NextIndex(db, id)) := e]
  {
    hide M.Ok, SessionsRel, MessagesRel, Find, SameMessage, PendingMatches, SameOutbound, Q.NextIndex, M.AppendEntry, M.EnsureSession, Q.AcceptsMessage,
         Q.CanInsert, Q.ReadMessage, M.ReplaceEntry;
  }

  lemma DeliveryBelow(s: M.Store, db: Q.Database, target: SessionId, d: Delivery, valid: bool)
    requires M.Ok(s) && Rel(s, db) && Below(s, db)
    ensures Below(M.RecordDelivery(s, target, d, valid).0, Q.RecordDelivery(db, target, d, valid).0)
  {
    hide M.Ok, Rel, Below;
    DeliveryKeepsIndexes(s, target, d, valid);
    DeliveryKeepsRows(db, target, d, valid);
    NoneMoves(s, M.RecordDelivery(s, target, d, valid).0, db, Q.RecordDelivery(db, target, d, valid).0);
  }

  lemma DeliveryKeepsIndexes(s: M.Store, target: SessionId, d: Delivery, valid: bool)
    ensures var s' := M.RecordDelivery(s, target, d, valid).0;
            && s'.sessions.Keys == s.sessions.Keys
            && forall id | id in s.sessions :: s'.sessions[id].indexes == s.sessions[id].indexes && s'.sessions[id].next == s.sessions[id].next
  {
    hide Find, SameOutbound, SamePending, ValidDelivery, M.HasCall;
  }

  lemma DeliveryKeepsRows(db: Q.Database, target: SessionId, d: Delivery, valid: bool)
    ensures Q.RecordDelivery(db, target, d, valid).0.entries.Keys == db.entries.Keys
  {
    hide SameOutbound, SamePending, ValidDelivery;
  }

  lemma CallBelow(s: M.Store, db: Q.Database, id: SessionId, call: ToolCall, valid: bool)
    requires M.Ok(s) && Rel(s, db) && Below(s, db)
    ensures Below(M.AppendToolCall(s, id, call, valid).0, Q.AppendToolCall(db, id, call, valid).0)
  {
    hide M.Ok, Rel, Below, OrderOf, Q.NextIndex, M.AppendEntry, M.HasCall, NamesCall, OnePayload, Q.CanInsert;
    AppendToolCallSimulates(s, db, id, call, valid);
    if M.AppendToolCall(s, id, call, valid).1 == Done {
      AppendBelow(s, M.AppendToolCall(s, id, call, valid).0, db, Q.AppendToolCall(db, id, call, valid).0, id, s.sessions[id], CallEntry(call));
    }
  }

  lemma ResultBelow(s: M.Store, db: Q.Database, id: SessionId, result: ToolResult, valid: bool)
    requires M.Ok(s) && Rel(s, db) && Below(s, db)
    ensures Below(M.AppendToolResult(s, id, result, valid).0, Q.AppendToolResult(db, id, result, valid).0)
  {
    hide M.Ok, SessionsRel, MessagesRel, Below, OrderOf, M.PlaceResult, NamesCall, Q.CanInsert, Find, Under;
    AppendToolResultSimulates(s, db, id, result, valid);
    var s', db' := M.AppendToolResult(s, id, result, valid).0, Q.AppendToolResult(db, id, result, valid).0;
    if M.AppendToolResult(s, id, result, valid).1 == Done {
      FoundCall(s, db, id, result);
      var at := Find(s.sessions[id].timeline, CallOf(result.runId, result.toolCallId)).value;
      ResultParts(s, db, id, result, valid, at);
      PlacedSessionRel(s, db, db', id, result, at);
      NextIs(db, id);
      UnderOne(s, db, id);
      UnderPlace(s.sessions[id], OrderOf(db, id), at, ResultEntry(result));
      OneChanges(s, s', db, db', id);
    }
  }

  lemma UnderOne(s: M.Store, db: Q.Database, id: SessionId)
    requires Below(s, db) && id in s.sessions
    ensures Under(s.sessions[id], OrderOf(db, id))
  {
  }

  lemma ResultParts(s: M.Store, db: Q.Database, id: SessionId, result: ToolResult, valid: bool, at: nat)
    requires M.AppendToolResult(s, id, result, valid).1 == Done && Q.AppendToolResult(db, id, result, valid).1 == Done
    requires id in s.sessions && Find(s.sessions[id].timeline, CallOf(result.runId, result.toolCallId)) == Some(at)
    ensures var session := s.sessions[id];
            && at < |session.timeline| && at < |session.indexes| && session.timeline[at].CallEntry?
            && session.timeline[at].call.toolName == result.toolName && Find(session.timeline, ResultOf(result.runId, result.toolCallId)).None?
            && M.AppendToolResult(s, id, result, valid).0.sessions == s.sessions[id := M.PlaceResult(session, at, ResultEntry(result))]
    ensures var key := Q.CallKey(id, result.runId, result.toolCallId);
            && key in db.calls
            && Q.AppendToolResult(db, id, result, valid).0
               == Q.InsertEntry(db, id, db.calls[key].index + 1, ResultEntry(result)).(
                    results := db.results[key := Q.CallRow(result.toolName, db.calls[key].index + 1)])
  {
    hide Find, M.PlaceResult, NamesCall;
  }

  lemma {:induction false} RunBelow(calls: seq<Call>)
    ensures Below(M.Run(M.EMPTY, calls), Q.Run(Q.EMPTY, calls))
  {
    if calls != [] {
      hide M.Ok, Rel, Below, M.AppendMessage, M.RecordDelivery, M.AppendToolCall, M.AppendToolResult,
           Q.AppendMessage, Q.RecordDelivery, Q.AppendToolCall, Q.AppendToolResult;
      var before := calls[..|calls| - 1];
      var s, db := M.Run(M.EMPTY, before), Q.Run(Q.EMPTY, before);
      RunBelow(before);
      RunSimulates(before);
      M.RunOk(before);
      match calls[|calls| - 1]
      case AppendMessageCall(id, m, valid) => MessageBelow(s, db, id, m, valid);
      case RecordDeliveryCall(id, d, valid) => DeliveryBelow(s, db, id, d, valid);
      case AppendToolCallCall(id, call, valid) => CallBelow(s, db, id, call, valid);
      case AppendToolResultCall(id, result, valid) => ResultBelow(s, db, id, result, valid);
    }
  }

  /** Entry by entry, the in-memory index is at most the durable one. */
  lemma MemoryIndexesAreLower(calls: seq<Call>, id: SessionId)
    requires id in M.Run(M.EMPTY, calls).sessions
    ensures var indexes, order := M.Run(M.EMPTY, calls).sessions[id].indexes, OrderOf(Q.Run(Q.EMPTY, calls), id);
            |indexes| == |order| && forall i | 0 <= i < |order| :: indexes[i] <= order[i]
  {
    hide M.Run, Q.Run, OrderOf;
    RunBelow(calls);
  }
}
