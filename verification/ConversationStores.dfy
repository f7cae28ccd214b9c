/**
 The two conversation stores are bisimilar: they accept and refuse the same calls with the same
 answers and hold the same timelines, although they number entries differently.
 */
module ConversationStores {
  import opened Common
  import opened ConversationFacts
  import M = InMemoryConversations
  import Q = SqliteConversations

  // ---------------------------------------------------------------- the relation

  /** The entry rows of a session hold its timeline at the ordered indexes `ix`. */
  ghost predicate EntriesRel(timeline: seq<Entry>, ix: seq<nat>, entries: map<Q.EntryKey, Entry>, id: SessionId) {
    && M.Spaced(timeline, ix)
    && (forall n :: Q.EntryKey(id, n) in entries <==> n in ix)
    && (forall i | 0 <= i < |ix| :: entries[Q.EntryKey(id, ix[i])] == timeline[i])
  }

  ghost predicate CallsRel(timeline: seq<Entry>, ix: seq<nat>, calls: map<Q.CallKey, Q.CallRow>, id: SessionId) {
    && |ix| == |timeline|
    && forall run, call ::
         var found := Find(timeline, CallOf(run, call));
         && (Q.CallKey(id, run, call) in calls <==> found.Some?)
         && (found.Some? ==> calls[Q.CallKey(id, run, call)] == Q.CallRow(timeline[found.value].call.toolName, ix[found.value]))
  }

  ghost predicate ResultsRel(timeline: seq<Entry>, results: map<Q.CallKey, Q.CallRow>, id: SessionId) {
    forall run, call :: Q.CallKey(id, run, call) in results <==> Find(timeline, ResultOf(run, call)).Some?
  }

  ghost function OrderOf(db: Q.Database, id: SessionId): seq<nat> {
    Q.Ordered(Q.IndexesOf(db.entries, id))
  }

  ghost predicate SessionRel(s: M.Session, db: Q.Database, id: SessionId) {
    && EntriesRel(s.timeline, OrderOf(db, id), db.entries, id)
    && CallsRel(s.timeline, OrderOf(db, id), db.calls, id)
    && ResultsRel(s.timeline, db.results, id)
  }

  ghost predicate SessionsRel(s: M.Store, db: Q.Database) {
    && s.sessions.Keys == db.sessions.Keys
    && (forall id | id in s.sessions :: db.sessions[id] == s.sessions[id].metadata && SessionRel(s.sessions[id], db, id))
    && (forall k | k in db.entries :: k.sessionId in s.sessions)
    && (forall k | k in db.calls :: k.sessionId in s.sessions)
    && (forall k | k in db.results :: k.sessionId in s.sessions)
  }

  ghost predicate MessageRel(s: M.Store, db: Q.Database, key: MessageKey)
    requires key in s.locations && key in db.messages
  {
    var loc, row := s.locations[key], db.messages[key];
    && loc.entry.MessageEntry? && row.sessionId == loc.sessionId && row.observed == loc.entry.observed
    && loc.sessionId in s.sessions
    && var i := Find(s.sessions[loc.sessionId].timeline, MessageOf(key));
    && i.Some? && i.value < |OrderOf(db, loc.sessionId)| && row.index == OrderOf(db, loc.sessionId)[i.value]
  }

  ghost predicate MessagesRel(s: M.Store, db: Q.Database) {
    && s.locations.Keys == db.messages.Keys
    && forall key | key in s.locations :: MessageRel(s, db, key)
  }

  ghost predicate Rel(s: M.Store, db: Q.Database) {
    SessionsRel(s, db) && MessagesRel(s, db) && db.deliveries == s.pending
  }

  // ---------------------------------------------------------------- orders

  /** Inserting a row makes its index part of the order; replacing one leaves the order alone. */
  lemma OrderAfter(entries: map<Q.EntryKey, Entry>, entries': map<Q.EntryKey, Entry>, id: SessionId, ix: seq<nat>)
    requires forall n :: Q.EntryKey(id, n) in entries' <==> n in ix
    requires M.Increases(ix)
    ensures Q.Ordered(Q.IndexesOf(entries', id)) == ix
  {
    forall n ensures n in Q.IndexesOf(entries', id) <==> n in ix { Q.IndexRow(entries', id, n); }
    hide Q.IndexesOf, Q.Ordered;
    Q.OrderedUnique(Q.IndexesOf(entries', id), ix);
  }

  lemma OrderIs(timeline: seq<Entry>, ix: seq<nat>, db: Q.Database, id: SessionId)
    requires EntriesRel(timeline, ix, db.entries, id)
    ensures OrderOf(db, id) == ix
  {
    M.SpacedIncreases(timeline, ix);
    OrderAfter(db.entries, db.entries, id, ix);
  }

  lemma OrderSame(db: Q.Database, db': Q.Database, id: SessionId)
    requires forall n :: Q.EntryKey(id, n) in db'.entries <==> Q.EntryKey(id, n) in db.entries
    ensures OrderOf(db', id) == OrderOf(db, id)
  {
    forall n ensures n in Q.IndexesOf(db'.entries, id) <==> n in Q.IndexesOf(db.entries, id) {
      Q.IndexRow(db'.entries, id, n);
      Q.IndexRow(db.entries, id, n);
    }
    hide Q.IndexesOf;
    assert Q.IndexesOf(db'.entries, id) == Q.IndexesOf(db.entries, id);
  }

  /** A session whose own rows did not change is related as before. */
  lemma SessionSame(s: M.Session, db: Q.Database, db': Q.Database, id: SessionId)
    requires SessionRel(s, db, id)
    requires forall n :: Q.EntryKey(id, n) in db'.entries <==> Q.EntryKey(id, n) in db.entries
    requires forall n | Q.EntryKey(id, n) in db.entries :: db'.entries[Q.EntryKey(id, n)] == db.entries[Q.EntryKey(id, n)]
    requires forall run, call :: Q.CallKey(id, run, call) in db'.calls <==> Q.CallKey(id, run, call) in db.calls
    requires forall run, call | Q.CallKey(id, run, call) in db.calls :: db'.calls[Q.CallKey(id, run, call)] == db.calls[Q.CallKey(id, run, call)]
    requires forall run, call :: Q.CallKey(id, run, call) in db'.results <==> Q.CallKey(id, run, call) in db.results
    ensures SessionRel(s, db', id)
  {
    hide OrderOf, Find, M.Spaced;
    OrderSame(db, db', id);
  }

  /** What follows the last index of a related session in the durable store. */
  lemma NextFollows(timeline: seq<Entry>, ix: seq<nat>, db: Q.Database, id: SessionId)
    requires EntriesRel(timeline, ix, db.entries, id)
    ensures var next := Q.NextIndex(db, id);
            && (timeline != [] ==> next >= ix[|ix| - 1] + M.Gap(timeline[|timeline| - 1]))
            && next !in ix && Q.CanInsert(db, id, next)
  {
    M.SpacedIncreases(timeline, ix);
    var used := Q.IndexesOf(db.entries, id);
    forall n ensures n in used <==> n in ix { Q.IndexRow(db.entries, id, n); }
    hide Q.IndexesOf, M.Spaced;
    if timeline != [] {
      var last := ix[|ix| - 1];
      assert last in ix && last in used;
      assert Q.MaxOf(used) in ix;
      assert Q.MaxOf(used) == last;
    } else {
      assert ix == [];
      assert used == {};
    }
  }

  /** Both stores append at the end, each at its own next index. */
  lemma AppendEntries(timeline: seq<Entry>, ix: seq<nat>, db: Q.Database, id: SessionId, e: Entry)
    requires EntriesRel(timeline, ix, db.entries, id) && !e.ResultEntry?
    ensures EntriesRel(timeline + [e], ix + [Q.NextIndex(db, id)], db.entries[Q.EntryKey(id, Q.NextIndex(db, id)) := e], id)
  {
    hide M.Spaced, M.Gap, Q.NextIndex;
    NextFollows(timeline, ix, db, id);
    M.AppendSpaced(timeline, ix, e, Q.NextIndex(db, id));
    assert |ix| == |timeline| by { M.SpacedLength(timeline, ix); }
  }

  lemma ReplaceEntries(timeline: seq<Entry>, ix: seq<nat>, entries: map<Q.EntryKey, Entry>, id: SessionId, n: nat, e: Entry)
    requires EntriesRel(timeline, ix, entries, id) && n < |timeline| && n < |ix| && timeline[n].MessageEntry? && e.MessageEntry?
    ensures EntriesRel(timeline[n := e], ix, entries[Q.EntryKey(id, ix[n]) := e], id)
  {
    M.SpacedIncreases(timeline, ix);
    M.ReplaceSpaced(timeline, ix, n, e);
    M.SpacedLength(timeline, ix);
    hide M.Spaced;
  }

  lemma PlaceEntries(timeline: seq<Entry>, ix: seq<nat>, entries: map<Q.EntryKey, Entry>, id: SessionId, at: nat, e: Entry)
    requires EntriesRel(timeline, ix, entries, id) && DistinctIds(timeline) && at < |timeline| && at < |ix| && timeline[at].CallEntry? && e.ResultEntry?
    requires M.Follows(timeline[at], ix[at], e, ix[at] + 1) && Find(timeline, IdOf(e)).None?
    ensures Q.EntryKey(id, ix[at] + 1) !in entries
    ensures EntriesRel(InsertAt(timeline, at + 1, e), M.Placed(ix, at), entries[Q.EntryKey(id, ix[at] + 1) := e], id)
  {
    hide M.Spaced, InsertAt, M.Placed, Find, DistinctIds;
    InsertedAt(timeline, at + 1, e, 0);
    M.SlotFree(timeline, ix, at);
    M.PlaceSpaced(timeline, ix, at, e);
    M.SpacedLength(timeline, ix);
    var t, x := InsertAt(timeline, at + 1, e), M.Placed(ix, at);
    var entries' := entries[Q.EntryKey(id, ix[at] + 1) := e];
    M.PlacedAt(ix, at, 0);
    forall i | 0 <= i < |x| ensures x[i] == (if i == at + 1 then ix[at] + 1 else ix[Before(at + 1, i)]) { M.PlacedAt(ix, at, i); }
    forall n ensures Q.EntryKey(id, n) in entries' <==> n in x { PlacedMember(ix, at, n); }
    forall i | 0 <= i < |x| ensures entries'[Q.EntryKey(id, x[i])] == t[i] {
      InsertedAt(timeline, at + 1, e, i);
    }
  }

  lemma PlacedMember(ix: seq<nat>, at: nat, n: nat)
    requires at < |ix|
    ensures n in M.Placed(ix, at) <==> n in ix || n == ix[at] + 1
  {
    assert ix == ix[..at + 1] + ix[at + 1..];
  }

  // ---------------------------------------------------------------- one session changes

  predicate SameRows(db: Q.Database, db': Q.Database, id: SessionId) {
    && (forall k | k in db.entries && k.sessionId != id :: k in db'.entries && db'.entries[k] == db.entries[k])
    && (forall k | k in db'.entries && k.sessionId != id :: k in db.entries)
    && (forall k | k in db.calls && k.sessionId != id :: k in db'.calls && db'.calls[k] == db.calls[k])
    && (forall k | k in db'.calls && k.sessionId != id :: k in db.calls)
    && (forall k | k in db.results && k.sessionId != id :: k in db'.results)
    && (forall k | k in db'.results && k.sessionId != id :: k in db.results)
  }

  /** The other sessions, and their messages, are related as before. */
  lemma OtherSession(s: M.Session, db: Q.Database, db': Q.Database, id: SessionId, other: SessionId)
    requires SameRows(db, db', id) && other != id
    ensures OrderOf(db', other) == OrderOf(db, other)
    ensures SessionRel(s, db, other) ==> SessionRel(s, db', other)
  {
    OrderSame(db, db', other);
    hide OrderOf, Find, M.Spaced;
    if SessionRel(s, db, other) { SessionSame(s, db, db', other); }
  }

  lemma SessionsAfter(s: M.Store, s': M.Store, db: Q.Database, db': Q.Database, id: SessionId)
    requires SessionsRel(s, db) && SameRows(db, db', id)
    requires id in s'.sessions && s'.sessions == s.sessions[id := s'.sessions[id]]
    requires db'.sessions == db.sessions[id := s'.sessions[id].metadata] && SessionRel(s'.sessions[id], db', id)
    ensures SessionsRel(s', db')
  {
    hide SessionRel, OrderOf;
    forall x | x in s'.sessions ensures db'.sessions[x] == s'.sessions[x].metadata && SessionRel(s'.sessions[x], db', x) {
      if x != id { OtherSession(s.sessions[x], db, db', id, x); }
    }
  }

  lemma MessagesAfter(s: M.Store, s': M.Store, db: Q.Database, db': Q.Database, id: SessionId)
    requires MessagesRel(s, db) && SameRows(db, db', id)
    requires id in s'.sessions && s'.sessions == s.sessions[id := s'.sessions[id]]
    requires s'.locations.Keys == db'.messages.Keys
    requires forall key | key in s'.locations && s'.locations[key].sessionId == id :: MessageRel(s', db', key)
    requires forall key | key in s'.locations && s'.locations[key].sessionId != id ::
               key in s.locations && s'.locations[key] == s.locations[key] && db'.messages[key] == db.messages[key]
    ensures MessagesRel(s', db')
  {
    hide OrderOf, Find, SameRows;
    forall key | key in s'.locations ensures MessageRel(s', db', key) {
      if s'.locations[key].sessionId != id {
        assert MessageRel(s, db, key);
        OtherSession(s'.sessions[s'.locations[key].sessionId], db, db', id, s'.locations[key].sessionId);
      }
    }
  }

  /** The rows of a session that no store knows yet. */
  lemma NewSessionRel(s: M.Store, db: Q.Database, id: SessionId)
    requires SessionsRel(s, db) && id !in s.sessions
    ensures EntriesRel([], [], db.entries, id) && CallsRel([], [], db.calls, id) && ResultsRel([], db.results, id)
  {
    hide SessionRel, OrderOf;
    assert forall n :: Q.EntryKey(id, n) !in db.entries;
    assert forall run, call :: Q.CallKey(id, run, call) !in db.calls && Q.CallKey(id, run, call) !in db.results;
  }

  // ---------------------------------------------------------------- appending an entry

  lemma AppendSessionRel(session: M.Session, ix: seq<nat>, db: Q.Database, db': Q.Database, id: SessionId, e: Entry)
    requires EntriesRel(session.timeline, ix, db.entries, id) && CallsRel(session.timeline, ix, db.calls, id) && ResultsRel(session.timeline, db.results, id)
    requires !e.ResultEntry? && Find(session.timeline, IdOf(e)).None?
    requires db'.entries == db.entries[Q.EntryKey(id, Q.NextIndex(db, id)) := e] && db'.results == db.results
    requires db'.calls == if e.CallEntry? then db.calls[Q.CallKey(id, e.call.runId, e.call.toolCallId) := Q.CallRow(e.call.toolName, Q.NextIndex(db, id))]
                          else db.calls
    ensures OrderOf(db', id) == ix + [Q.NextIndex(db, id)] && SessionRel(M.AppendEntry(session, e), db', id)
  {
    hide EntriesRel, Find, Q.NextIndex;
    AppendEntries(session.timeline, ix, db, id, e);
    var t, x := session.timeline + [e], ix + [Q.NextIndex(db, id)];
    OrderIs(t, x, db', id);
    hide OrderOf;
    forall run, call
      ensures Q.CallKey(id, run, call) in db'.calls <==> Find(t, CallOf(run, call)).Some?
      ensures Find(t, CallOf(run, call)).Some? ==>
                db'.calls[Q.CallKey(id, run, call)] == Q.CallRow(t[Find(t, CallOf(run, call)).value].call.toolName, x[Find(t, CallOf(run, call)).value])
    {
      FindAppend(session.timeline, e, CallOf(run, call));
    }
    forall run, call ensures Q.CallKey(id, run, call) in db'.results <==> Find(t, ResultOf(run, call)).Some? {
      FindAppend(session.timeline, e, ResultOf(run, call));
    }
  }

  lemma AppendedRows(db: Q.Database, db': Q.Database, index: nat, e: Entry, key: Q.CallKey, row: Q.CallRow)
    requires db'.entries == db.entries[Q.EntryKey(key.sessionId, index) := e]
    requires db'.calls == db.calls || db'.calls == db.calls[key := row]
    requires db'.results == db.results || db'.results == db.results[key := row]
    ensures SameRows(db, db', key.sessionId)
  {
  }

  lemma MessageAfterAppend(s: M.Store, s': M.Store, db: Q.Database, db': Q.Database, id: SessionId, session: M.Session, e: Entry, key: MessageKey)
    requires id in s.sessions && session == s.sessions[id] && s'.sessions == s.sessions[id := M.AppendEntry(session, e)]
    requires key in s.locations && key in db.messages && MessageRel(s, db, key) && s.locations[key].sessionId == id
    requires key in s'.locations && s'.locations[key] == s.locations[key] && key in db'.messages && db'.messages[key] == db.messages[key]
    requires OrderOf(db', id) == OrderOf(db, id) + [Q.NextIndex(db, id)]
    ensures MessageRel(s', db', key)
  {
    hide OrderOf, Find, Q.NextIndex;
    FindAppend(session.timeline, e, MessageOf(key));
  }

  /** A message nobody has seen arrives in both stores. */
  lemma MessageEnters(s: M.Store, db: Q.Database, id: SessionId, m: Message, e: Entry)
    requires M.Ok(s) && Rel(s, db) && M.EnsureSession(s, id, m).Some?
    requires e.MessageEntry? && e.key == ConversationFacts.KeyOf(m) && e.key !in s.locations && e.observed == m
    ensures var session := M.EnsureSession(s, id, m).value;
            var index := Q.NextIndex(db, id);
            Q.CanInsert(db, id, index) &&
            Rel(M.Store(s.sessions[id := M.AppendEntry(session, e)], s.locations[e.key := M.Location(id, e)], s.pending - {e.key}),
                Q.InsertEntry(db, id, index, e).(sessions := db.sessions[id := Metadata(m.route, m.contentFormat)],
                  messages := db.messages[e.key := Q.MessageRow(id, index, m)], deliveries := db.deliveries - {e.key}))
  {
    hide M.SourcesOk, Find, Q.NextIndex, SessionRel, EntriesRel, CallsRel, ResultsRel, OrderOf, M.LocationsOk, M.EnsureSession, M.SessionOk,
         M.AppendEntry, SameRows, MessageRel;
    var session := M.EnsureSession(s, id, m).value;
    var index := Q.NextIndex(db, id);
    var s' := M.Store(s.sessions[id := M.AppendEntry(session, e)], s.locations[e.key := M.Location(id, e)], s.pending - {e.key});
    var db' := Q.InsertEntry(db, id, index, e).(sessions := db.sessions[id := Metadata(m.route, m.contentFormat)],
                  messages := db.messages[e.key := Q.MessageRow(id, index, m)], deliveries := db.deliveries - {e.key});
    M.EnsuredExactly(s, id, m);
    var ix := if id in s.sessions then OrderOf(db, id) else [];
    EnteredSession(s, db, db', id, m, e, ix);
    AppendedRows(db, db', index, e, Q.CallKey(id, "", ""), Q.CallRow("", 0));
    SessionsAfter(s, s', db, db', id);
    forall key | key in s'.locations && s'.locations[key].sessionId == id ensures MessageRel(s', db', key) {
      if key == e.key { NewMessageRel(s, s', db, db', id, session, e, ix); } else { OldMessageRel(s, s', db, db', id, session, e, key); }
    }
    MessagesAfter(s, s', db, db', id);
  }

  lemma EnteredSession(s: M.Store, db: Q.Database, db': Q.Database, id: SessionId, m: Message, e: Entry, ix: seq<nat>)
    requires M.Ok(s) && SessionsRel(s, db) && M.EnsureSession(s, id, m).Some? && e.MessageEntry? && e.key !in s.locations
    requires ix == if id in s.sessions then OrderOf(db, id) else []
    requires db'.entries == db.entries[Q.EntryKey(id, Q.NextIndex(db, id)) := e] && db'.results == db.results && db'.calls == db.calls
    ensures var session := M.EnsureSession(s, id, m).value;
            && SessionRel(M.AppendEntry(session, e), db', id) && OrderOf(db', id) == ix + [Q.NextIndex(db, id)]
            && M.AppendEntry(session, e).metadata == Metadata(m.route, m.contentFormat)
            && Q.CanInsert(db, id, Q.NextIndex(db, id)) && Find(session.timeline, MessageOf(e.key)).None? && |ix| == |session.timeline|
  {
    hide M.SourcesOk, M.SessionsOk, Find, Q.NextIndex, EntriesRel, CallsRel, ResultsRel, OrderOf, M.LocationsOk, M.EnsureSession;
    M.EnsuredExactly(s, id, m);
    var session := M.EnsureSession(s, id, m).value;
    M.FreshKey(s, id, session, e.key);
    if id !in s.sessions { NewSessionRel(s, db, id); }
    NextFollows(session.timeline, ix, db, id);
    AppendSessionRel(session, ix, db, db', id, e);
    EntriesLength(session.timeline, ix, db.entries, id);
  }

  lemma EntriesLength(timeline: seq<Entry>, ix: seq<nat>, entries: map<Q.EntryKey, Entry>, id: SessionId)
    requires EntriesRel(timeline, ix, entries, id)
    ensures |ix| == |timeline|
  {
    M.SpacedLength(timeline, ix);
    hide M.Spaced;
  }

  lemma NewMessageRel(s: M.Store, s': M.Store, db: Q.Database, db': Q.Database, id: SessionId, session: M.Session, e: Entry, ix: seq<nat>)
    requires e.MessageEntry? && e.key in s'.locations && s'.locations[e.key] == M.Location(id, e)
    requires e.key in db'.messages && db'.messages[e.key] == Q.MessageRow(id, Q.NextIndex(db, id), e.observed)
    requires s'.sessions == s.sessions[id := M.AppendEntry(session, e)] && OrderOf(db', id) == ix + [Q.NextIndex(db, id)]
    requires Find(session.timeline, MessageOf(e.key)).None? && |ix| == |session.timeline|
    ensures MessageRel(s', db', e.key)
  {
    hide OrderOf, Find, Q.NextIndex;
    FindAppend(session.timeline, e, MessageOf(e.key));
  }

  lemma OldMessageRel(s: M.Store, s': M.Store, db: Q.Database, db': Q.Database, id: SessionId, session: M.Session, e: Entry, key: MessageKey)
    requires MessagesRel(s, db) && key in s.locations && s.locations[key].sessionId == id
    requires id in s.sessions ==> session == s.sessions[id] && OrderOf(db', id) == OrderOf(db, id) + [Q.NextIndex(db, id)]
    requires s'.sessions == s.sessions[id := M.AppendEntry(session, e)]
    requires key in s'.locations && s'.locations[key] == s.locations[key] && key in db'.messages && db'.messages[key] == db.messages[key]
    ensures MessageRel(s', db', key)
  {
    assert MessageRel(s, db, key);
    hide OrderOf, Find, Q.NextIndex, M.AppendEntry;
    MessageAfterAppend(s, s', db, db', id, session, e, key);
  }

  // ---------------------------------------------------------------- the calls, one by one

  lemma HasCallRel(s: M.Store, db: Q.Database, id: SessionId, run: string, call: string)
    requires SessionsRel(s, db)
    ensures M.HasCall(s, id, run, call) <==> Q.CallKey(id, run, call) in db.calls
  {
    hide OrderOf, EntriesRel, ResultsRel, Find;
    assert id in s.sessions ==> SessionRel(s.sessions[id], db, id);
  }

  lemma MetadataRel(s: M.Store, db: Q.Database, id: SessionId)
    requires SessionsRel(s, db)
    ensures id in s.sessions <==> id in db.sessions
    ensures id in s.sessions ==> db.sessions[id] == s.sessions[id].metadata
  {
    hide SessionRel;
  }

  /** A located message reads back from its row as the entry the in-memory store located. */
  lemma LocatedRow(s: M.Store, db: Q.Database, key: MessageKey)
    requires M.Ok(s) && Rel(s, db) && key in s.locations
    ensures key in db.messages && s.locations[key].entry.MessageEntry? && s.locations[key].entry.key == key
    ensures var loc, row := s.locations[key], db.messages[key];
            row.sessionId == loc.sessionId && row.observed == loc.entry.observed && Q.ReadMessage(db, row) == Some(loc.entry) && loc.sessionId in s.sessions
  {
    hide M.SessionsOk, M.SourcesOk, CallsRel, ResultsRel, OrderOf, Find, M.Spaced;
    M.Located(s, key);
    assert MessageRel(s, db, key);
    var loc := s.locations[key];
    assert SessionRel(s.sessions[loc.sessionId], db, loc.sessionId);
  }

  lemma AppendMessageSimulates(s: M.Store, db: Q.Database, id: SessionId, m: Message, valid: bool)
    requires M.Ok(s) && Rel(s, db)
    ensures var (s', r), (db', q) := M.AppendMessage(s, id, m, valid), Q.AppendMessage(db, id, m, valid); r == q && Rel(s', db')
  {
    hide M.Ok, SessionsRel, MessageRel, Find, SameMessage, Q.NextIndex, M.AppendEntry, M.EnsureSession, Q.AcceptsMessage, Q.CanInsert, Blank, Q.ReadMessage;
    var key := ConversationFacts.KeyOf(m);
    if key in s.locations {
      LocatedRow(s, db, key);
      NotWaiting(s, key);
    } else {
      MetadataRel(s, db, id);
      AcceptsSame(s, db, id, m);
      if M.EnsureSession(s, id, m).Some? {
        var pending := M.PendingFor(s, key);
        MessageEnters(s, db, id, m, MessageEntry(key, m, if pending.None? then None else Some(pending.value.outbound)));
      }
    }
  }

  lemma NotWaiting(s: M.Store, key: MessageKey)
    requires M.Ok(s) && key in s.locations
    ensures key !in s.pending
  {
    hide M.SessionsOk, M.LocationsOk, M.SourcesOk;
  }

  lemma AcceptsSame(s: M.Store, db: Q.Database, id: SessionId, m: Message)
    requires SessionsRel(s, db)
    ensures M.EnsureSession(s, id, m).Some? <==> Q.AcceptsMessage(db, id, m)
  {
    hide Blank;
    MetadataRel(s, db, id);
    hide SessionsRel;
  }

  /** The two copies of an observed message take the same association. */
  lemma AssociateSimulates(s: M.Store, db: Q.Database, key: MessageKey, o: Outbound)
    requires M.Ok(s) && Rel(s, db) && key in s.locations && key in db.messages && s.locations[key].entry.MessageEntry?
    ensures var loc, row := s.locations[key], db.messages[key];
            var e := loc.entry.(outbound := Some(o));
            && loc.sessionId in s.sessions
            && Rel(s.(sessions := s.sessions[loc.sessionId := M.ReplaceEntry(s.sessions[loc.sessionId], key, e)],
                      locations := s.locations[key := M.Location(loc.sessionId, e)]),
                   Q.InsertEntry(db, row.sessionId, row.index, e))
  {
    hide M.Ok, SessionsRel, MessagesRel, SessionRel, OrderOf, Find, SameRows, M.ReplaceEntry, MessageRel;
    LocatedRow(s, db, key);
    var loc, row := s.locations[key], db.messages[key];
    var id := loc.sessionId;
    var e := loc.entry.(outbound := Some(o));
    var s' := s.(sessions := s.sessions[id := M.ReplaceEntry(s.sessions[id], key, e)], locations := s.locations[key := M.Location(id, e)]);
    var db' := Q.InsertEntry(db, id, row.index, e);
    ReplacedSession(s, db, key, e, db');
    AppendedRows(db, db', row.index, e, Q.CallKey(id, "", ""), Q.CallRow("", 0));
    MetadataRel(s, db, id);
    assert db'.sessions == db.sessions[id := s'.sessions[id].metadata];
    SessionsAfter(s, s', db, db', id);
    MessageKeys(s, db);
    forall k | k in s'.locations && s'.locations[k].sessionId == id ensures MessageRel(s', db', k) {
      ReplacedMessage(s, s', db, db', key, e, k);
    }
    MessagesAfter(s, s', db, db', id);
  }

  lemma MessageKeys(s: M.Store, db: Q.Database)
    requires MessagesRel(s, db)
    ensures s.locations.Keys == db.messages.Keys && forall key | key in s.locations :: MessageRel(s, db, key)
  {
    hide MessageRel;
  }

  lemma ReplacedSession(s: M.Store, db: Q.Database, key: MessageKey, e: Entry, db': Q.Database)
    requires M.Ok(s) && Rel(s, db) && key in s.locations && key in db.messages && e.MessageEntry? && e.key == key
    requires var loc, row := s.locations[key], db.messages[key];
             loc.sessionId in s.sessions && db' == Q.InsertEntry(db, loc.sessionId, row.index, e)
    ensures var loc := s.locations[key];
            && SessionRel(M.ReplaceEntry(s.sessions[loc.sessionId], key, e), db', loc.sessionId)
            && OrderOf(db', loc.sessionId) == OrderOf(db, loc.sessionId)
            && M.ReplaceEntry(s.sessions[loc.sessionId], key, e).metadata == s.sessions[loc.sessionId].metadata
            && (forall x :: Find(M.ReplaceEntry(s.sessions[loc.sessionId], key, e).timeline, x) == Find(s.sessions[loc.sessionId].timeline, x))
  {
    hide M.Ok, Rel, EntriesRel, CallsRel, ResultsRel, OrderOf, Find, M.ReplaceEntry;
    LocatedAt(s, db, key);
    var id := s.locations[key].sessionId;
    ReplacedSessionRel(s.sessions[id], OrderOf(db, id), db, db', id, key, e);
  }

  /** Where both stores keep a located message. */
  lemma LocatedAt(s: M.Store, db: Q.Database, key: MessageKey)
    requires M.Ok(s) && Rel(s, db) && key in s.locations && key in db.messages && s.locations[key].sessionId in s.sessions
    ensures var id := s.locations[key].sessionId;
            var n := Find(s.sessions[id].timeline, MessageOf(key));
            && SessionRel(s.sessions[id], db, id) && n.Some? && n.value < |OrderOf(db, id)|
            && s.sessions[id].timeline[n.value].MessageEntry? && db.messages[key].index == OrderOf(db, id)[n.value]
  {
    hide M.SessionsOk, M.SourcesOk, SessionRel, OrderOf, Find;
    M.Located(s, key);
    assert MessageRel(s, db, key);
  }

  lemma ReplacedSessionRel(session: M.Session, ix: seq<nat>, db: Q.Database, db': Q.Database, id: SessionId, key: MessageKey, e: Entry)
    requires EntriesRel(session.timeline, ix, db.entries, id) && CallsRel(session.timeline, ix, db.calls, id) && ResultsRel(session.timeline, db.results, id)
    requires var n := Find(session.timeline, MessageOf(key));
             && n.Some? && n.value < |ix| && session.timeline[n.value].MessageEntry? && e.MessageEntry? && e.key == key
             && db' == Q.InsertEntry(db, id, ix[n.value], e)
    ensures SessionRel(M.ReplaceEntry(session, key, e), db', id) && OrderOf(db', id) == ix
    ensures M.ReplaceEntry(session, key, e).metadata == session.metadata
    ensures forall x :: Find(M.ReplaceEntry(session, key, e).timeline, x) == Find(session.timeline, x)
  {
    hide EntriesRel, CallsRel, Find, OrderOf;
    var n := Find(session.timeline, MessageOf(key)).value;
    ReplaceEntries(session.timeline, ix, db.entries, id, n, e);
    OrderIs(session.timeline[n := e], ix, db', id);
    forall x ensures Find(session.timeline[n := e], x) == Find(session.timeline, x) { FindReplace(session.timeline, n, e, x); }
    ReplacedCalls(session.timeline, ix, db.calls, id, n, e);
  }

  lemma ReplacedCalls(timeline: seq<Entry>, ix: seq<nat>, calls: map<Q.CallKey, Q.CallRow>, id: SessionId, n: nat, e: Entry)
    requires CallsRel(timeline, ix, calls, id) && n < |timeline| && timeline[n].MessageEntry? && e.MessageEntry?
    requires forall x :: Find(timeline[n := e], x) == Find(timeline, x)
    ensures CallsRel(timeline[n := e], ix, calls, id)
  {
    hide Find;
  }

  lemma ReplacedMessage(s: M.Store, s': M.Store, db: Q.Database, db': Q.Database, key: MessageKey, e: Entry, k: MessageKey)
    requires MessagesRel(s, db) && key in s.locations && k in s'.locations && k in s.locations && k in db.messages && s'.locations[k].sessionId == s.locations[key].sessionId
    requires var id := s.locations[key].sessionId;
             && id in s.sessions && id in s'.sessions && OrderOf(db', id) == OrderOf(db, id)
             && (forall x :: Find(s'.sessions[id].timeline, x) == Find(s.sessions[id].timeline, x))
    requires e.MessageEntry? && s.locations[key].entry.MessageEntry? && e.observed == s.locations[key].entry.observed
    requires s'.locations == s.locations[key := M.Location(s.locations[key].sessionId, e)] && db'.messages == db.messages
    ensures MessageRel(s', db', k)
  {
    assert MessageRel(s, db, k);
    hide OrderOf, Find;
  }

  lemma RecordDeliverySimulates(s: M.Store, db: Q.Database, target: SessionId, d: Delivery, valid: bool)
    requires M.Ok(s) && Rel(s, db)
    ensures var (s', r), (db', q) := M.RecordDelivery(s, target, d, valid), Q.RecordDelivery(db, target, d, valid); r == q && Rel(s', db')
  {
    hide M.Ok, SessionsRel, MessageRel, Find, SameOutbound, SamePending, ValidDelivery, M.HasCall, M.ReplaceEntry, Q.ReadMessage;
    HasCallRel(s, db, d.sourceSessionId, d.runId, d.toolCallId);
    MetadataRel(s, db, target);
    if d.receipt in s.locations {
      LocatedRow(s, db, d.receipt);
      AssociateSimulates(s, db, d.receipt, PendingOf(target, d).outbound);
    } else {
      OnlyWaiting(s, db, s.pending[d.receipt := PendingOf(target, d)]);
    }
  }

  lemma OnlyWaiting(s: M.Store, db: Q.Database, pending: map<MessageKey, Pending>)
    requires Rel(s, db)
    ensures Rel(s.(pending := pending), db.(deliveries := pending))
  {
    hide Find, Q.IndexesOf, Q.Ordered, EntriesRel, CallsRel, ResultsRel;
    forall id | id in s.sessions ensures SessionRel(s.sessions[id], db.(deliveries := pending), id) { assert SessionRel(s.sessions[id], db, id); }
    assert forall key | key in s.locations :: MessageRel(s, db, key) == MessageRel(s.(pending := pending), db.(deliveries := pending), key);
  }

  lemma AppendToolCallSimulates(s: M.Store, db: Q.Database, id: SessionId, call: ToolCall, valid: bool)
    requires M.Ok(s) && Rel(s, db)
    ensures var (s', r), (db', q) := M.AppendToolCall(s, id, call, valid), Q.AppendToolCall(db, id, call, valid); r == q && Rel(s', db')
  {
    hide M.Ok, SessionsRel, MessagesRel, SessionRel, OrderOf, Find, M.HasCall, M.AppendEntry, Q.NextIndex, NamesCall, OnePayload, SameRows, MessageRel;
    HasCallRel(s, db, id, call.runId, call.toolCallId);
    MetadataRel(s, db, id);
    if M.AppendToolCall(s, id, call, valid).1.Done? {
      var (s', db') := (M.AppendToolCall(s, id, call, valid).0, Q.InsertEntry(db, id, Q.NextIndex(db, id), CallEntry(call)).(
        calls := db.calls[Q.CallKey(id, call.runId, call.toolCallId) := Q.CallRow(call.toolName, Q.NextIndex(db, id))]));
      CalledSession(s, db, db', id, call);
      AppendedRows(db, db', Q.NextIndex(db, id), CallEntry(call), Q.CallKey(id, call.runId, call.toolCallId), Q.CallRow(call.toolName, Q.NextIndex(db, id)));
      assert db'.sessions == db.sessions[id := s'.sessions[id].metadata];
      SessionsAfter(s, s', db, db', id);
      MessageKeys(s, db);
      forall key | key in s'.locations && s'.locations[key].sessionId == id ensures MessageRel(s', db', key) {
        MessageAfterAppend(s, s', db, db', id, s.sessions[id], CallEntry(call), key);
      }
      MessagesAfter(s, s', db, db', id);
    }
  }

  lemma CalledSession(s: M.Store, db: Q.Database, db': Q.Database, id: SessionId, call: ToolCall)
    requires SessionsRel(s, db) && id in s.sessions && !M.HasCall(s, id, call.runId, call.toolCallId)
    requires db' == Q.InsertEntry(db, id, Q.NextIndex(db, id), CallEntry(call)).(
        calls := db.calls[Q.CallKey(id, call.runId, call.toolCallId) := Q.CallRow(call.toolName, Q.NextIndex(db, id))])
    ensures Q.CanInsert(db, id, Q.NextIndex(db, id)) && OrderOf(db', id) == OrderOf(db, id) + [Q.NextIndex(db, id)]
    ensures SessionRel(M.AppendEntry(s.sessions[id], CallEntry(call)), db', id) && M.AppendEntry(s.sessions[id], CallEntry(call)).metadata == s.sessions[id].metadata
  {
    assert SessionRel(s.sessions[id], db, id);
    hide SessionsRel, EntriesRel, CallsRel, ResultsRel, OrderOf, Find, Q.NextIndex;
    var session := s.sessions[id];
    NextFollows(session.timeline, OrderOf(db, id), db, id);
    AppendSessionRel(session, OrderOf(db, id), db, db', id, CallEntry(call));
  }

  lemma AppendToolResultSimulates(s: M.Store, db: Q.Database, id: SessionId, result: ToolResult, valid: bool)
    requires M.Ok(s) && Rel(s, db)
    ensures var (s', r), (db', q) := M.AppendToolResult(s, id, result, valid), Q.AppendToolResult(db, id, result, valid); r == q && Rel(s', db')
  {
    hide M.Ok, SessionsRel, MessagesRel, SessionRel, OrderOf, Find, M.HasCall, M.PlaceResult, NamesCall, SameRows, MessageRel;
    HasCallRel(s, db, id, result.runId, result.toolCallId);
    MetadataRel(s, db, id);
    if M.HasCall(s, id, result.runId, result.toolCallId) {
      FoundCall(s, db, id, result);
      var session := s.sessions[id];
      var at := Find(session.timeline, CallOf(result.runId, result.toolCallId)).value;
      if M.AppendToolResult(s, id, result, valid).1.Done? {
        var e, key := ResultEntry(result), Q.CallKey(id, result.runId, result.toolCallId);
        var s' := s.(sessions := s.sessions[id := M.PlaceResult(session, at, e)]);
        var db' := Q.InsertEntry(db, id, db.calls[key].index + 1, e).(results := db.results[key := Q.CallRow(result.toolName, db.calls[key].index + 1)]);
        PlacedSessionRel(s, db, db', id, result, at);
        AppendedRows(db, db', db.calls[key].index + 1, e, key, Q.CallRow(result.toolName, db.calls[key].index + 1));
        assert db'.sessions == db.sessions[id := s'.sessions[id].metadata];
        SessionsAfter(s, s', db, db', id);
        MessageKeys(s, db);
        forall k | k in s'.locations && s'.locations[k].sessionId == id ensures MessageRel(s', db', k) {
          PlacedMessage(s, s', db, db', id, at, e, k);
        }
        MessagesAfter(s, s', db, db', id);
      }
    }
  }

  /** Both stores find the same call, its result missing or not, and agree on its name. */
  lemma FoundCall(s: M.Store, db: Q.Database, id: SessionId, result: ToolResult)
    requires M.Ok(s) && SessionsRel(s, db) && M.HasCall(s, id, result.runId, result.toolCallId)
    ensures var at := Find(s.sessions[id].timeline, CallOf(result.runId, result.toolCallId));
            var key := Q.CallKey(id, result.runId, result.toolCallId);
            && id in s.sessions && at.Some? && key in db.calls && at.value < |OrderOf(db, id)| && at.value < |s.sessions[id].indexes|
            && s.sessions[id].timeline[at.value].CallEntry?
            && db.calls[key] == Q.CallRow(s.sessions[id].timeline[at.value].call.toolName, OrderOf(db, id)[at.value])
            && (key in db.results <==> Find(s.sessions[id].timeline, ResultOf(result.runId, result.toolCallId)).Some?)
  {
    assert id in s.sessions;
    assert SessionRel(s.sessions[id], db, id);
    M.OneSession(s, id);
    M.SpacedLength(s.sessions[id].timeline, s.sessions[id].indexes);
    hide M.Ok, SessionsRel, EntriesRel, OrderOf, Find;
  }

  lemma PlacedSessionRel(s: M.Store, db: Q.Database, db': Q.Database, id: SessionId, result: ToolResult, at: nat)
    requires M.Ok(s) && SessionsRel(s, db) && id in s.sessions && at < |s.sessions[id].timeline| && at < |s.sessions[id].indexes| && at < |OrderOf(db, id)|
    requires var session := s.sessions[id];
             && Find(session.timeline, CallOf(result.runId, result.toolCallId)) == Some(at) && session.timeline[at].CallEntry?
             && session.timeline[at].call.toolName == result.toolName && Find(session.timeline, ResultOf(result.runId, result.toolCallId)).None?
    requires db' == Q.InsertEntry(db, id, OrderOf(db, id)[at] + 1, ResultEntry(result)).(
                      results := db.results[Q.CallKey(id, result.runId, result.toolCallId) := Q.CallRow(result.toolName, OrderOf(db, id)[at] + 1)])
    ensures Q.CanInsert(db, id, OrderOf(db, id)[at] + 1) && OrderOf(db', id) == M.Placed(OrderOf(db, id), at)
    ensures SessionRel(M.PlaceResult(s.sessions[id], at, ResultEntry(result)), db', id) && DistinctIds(s.sessions[id].timeline)
    ensures |OrderOf(db, id)| == |s.sessions[id].timeline| && M.PlaceResult(s.sessions[id], at, ResultEntry(result)).metadata == s.sessions[id].metadata
  {
    hide M.Ok, EntriesRel, CallsRel, ResultsRel, OrderOf, Find, InsertAt, M.Placed, M.Spaced, DistinctIds;
    assert SessionRel(s.sessions[id], db, id);
    hide SessionsRel;
    M.OneSession(s, id);
    PlacedRel(s.sessions[id], OrderOf(db, id), db, db', id, result, at);
  }

  lemma PlacedRel(session: M.Session, ix: seq<nat>, db: Q.Database, db': Q.Database, id: SessionId, result: ToolResult, at: nat)
    requires EntriesRel(session.timeline, ix, db.entries, id) && CallsRel(session.timeline, ix, db.calls, id) && ResultsRel(session.timeline, db.results, id)
    requires DistinctIds(session.timeline) && at < |session.timeline| && at < |ix| && at < |session.indexes|
    requires Find(session.timeline, CallOf(result.runId, result.toolCallId)) == Some(at) && session.timeline[at].CallEntry?
    requires session.timeline[at].call.toolName == result.toolName && Find(session.timeline, ResultOf(result.runId, result.toolCallId)).None?
    requires db' == Q.InsertEntry(db, id, ix[at] + 1, ResultEntry(result)).(
                      results := db.results[Q.CallKey(id, result.runId, result.toolCallId) := Q.CallRow(result.toolName, ix[at] + 1)])
    ensures Q.CanInsert(db, id, ix[at] + 1) && OrderOf(db', id) == M.Placed(ix, at)
    ensures SessionRel(M.PlaceResult(session, at, ResultEntry(result)), db', id) && |ix| == |session.timeline|
  {
    hide EntriesRel, CallsRel, OrderOf, Find, InsertAt, M.Placed, DistinctIds;
    var e := ResultEntry(result);
    PlaceEntries(session.timeline, ix, db.entries, id, at, e);
    EntriesLength(session.timeline, ix, db.entries, id);
    OrderIs(InsertAt(session.timeline, at + 1, e), M.Placed(ix, at), db', id);
    PlacedCalls(session.timeline, ix, db.calls, id, at, e);
    PlacedResults(session.timeline, db.results, id, at, e, Q.CallRow(result.toolName, ix[at] + 1));
  }

  lemma PlacedResults(timeline: seq<Entry>, results: map<Q.CallKey, Q.CallRow>, id: SessionId, at: nat, e: Entry, row: Q.CallRow)
    requires ResultsRel(timeline, results, id) && DistinctIds(timeline) && at < |timeline| && e.ResultEntry? && Find(timeline, IdOf(e)).None?
    ensures ResultsRel(InsertAt(timeline, at + 1, e), results[Q.CallKey(id, e.result.runId, e.result.toolCallId) := row], id)
  {
    hide Find, InsertAt, DistinctIds;
    var results' := results[Q.CallKey(id, e.result.runId, e.result.toolCallId) := row];
    forall run, call ensures Q.CallKey(id, run, call) in results' <==> Find(InsertAt(timeline, at + 1, e), ResultOf(run, call)).Some? {
      PlacedResultOf(timeline, results, id, at, e, run, call);
    }
  }

  lemma PlacedResultOf(timeline: seq<Entry>, results: map<Q.CallKey, Q.CallRow>, id: SessionId, at: nat, e: Entry, run: string, call: string)
    requires ResultsRel(timeline, results, id) && DistinctIds(timeline) && at < |timeline| && e.ResultEntry? && Find(timeline, IdOf(e)).None?
    ensures Q.CallKey(id, run, call) in results || Q.CallKey(id, run, call) == Q.CallKey(id, e.result.runId, e.result.toolCallId)
            <==> Find(InsertAt(timeline, at + 1, e), ResultOf(run, call)).Some?
  {
    assert Q.CallKey(id, run, call) in results <==> Find(timeline, ResultOf(run, call)).Some?;
    hide Find, InsertAt, DistinctIds, ResultsRel;
    FindInsert(timeline, at + 1, e, ResultOf(run, call));
  }

  lemma PlacedCalls(timeline: seq<Entry>, ix: seq<nat>, calls: map<Q.CallKey, Q.CallRow>, id: SessionId, at: nat, e: Entry)
    requires CallsRel(timeline, ix, calls, id) && DistinctIds(timeline) && at < |timeline| && e.ResultEntry? && Find(timeline, IdOf(e)).None?
    ensures CallsRel(InsertAt(timeline, at + 1, e), M.Placed(ix, at), calls, id)
  {
    hide Find, InsertAt, M.Placed, DistinctIds;
    var t, x := InsertAt(timeline, at + 1, e), M.Placed(ix, at);
    InsertedAt(timeline, at + 1, e, 0);
    M.PlacedAt(ix, at, 0);
    forall run, call
      ensures Q.CallKey(id, run, call) in calls <==> Find(t, CallOf(run, call)).Some?
      ensures Find(t, CallOf(run, call)).Some? ==>
                calls[Q.CallKey(id, run, call)] == Q.CallRow(t[Find(t, CallOf(run, call)).value].call.toolName, x[Find(t, CallOf(run, call)).value])
    {
      FindInsert(timeline, at + 1, e, CallOf(run, call));
      if Find(t, CallOf(run, call)).Some? {
        InsertedAt(timeline, at + 1, e, Find(t, CallOf(run, call)).value);
        M.PlacedAt(ix, at, Find(t, CallOf(run, call)).value);
      }
    }
  }

  lemma PlacedMessage(s: M.Store, s': M.Store, db: Q.Database, db': Q.Database, id: SessionId, at: nat, e: Entry, k: MessageKey)
    requires MessagesRel(s, db) && id in s.sessions && at < |s.sessions[id].timeline| && DistinctIds(s.sessions[id].timeline) && at < |s.sessions[id].indexes|
    requires e.ResultEntry? && Find(s.sessions[id].timeline, IdOf(e)).None? && |OrderOf(db, id)| == |s.sessions[id].timeline|
    requires s'.sessions == s.sessions[id := M.PlaceResult(s.sessions[id], at, e)] && s'.locations == s.locations && db'.messages == db.messages
    requires k in s.locations && s.locations[k].sessionId == id && k in db.messages && OrderOf(db', id) == M.Placed(OrderOf(db, id), at)
    ensures MessageRel(s', db', k)
  {
    hide OrderOf, Find, InsertAt, M.Placed, DistinctIds;
    assert MessageRel(s, db, k);
    hide MessagesRel;
    FindInsert(s.sessions[id].timeline, at + 1, e, MessageOf(k));
    M.PlacedAt(OrderOf(db, id), at, Find(s'.sessions[id].timeline, MessageOf(k)).value);
  }

  // ---------------------------------------------------------------- every run

  lemma PerformSimulates(s: M.Store, db: Q.Database, c: Call)
    requires M.Ok(s) && Rel(s, db)
    ensures M.Perform(s, c).1 == Q.Perform(db, c).1 && Rel(M.Perform(s, c).0, Q.Perform(db, c).0)
  {
    hide M.Ok, Rel, M.AppendMessage, M.RecordDelivery, M.AppendToolCall, M.AppendToolResult,
         Q.AppendMessage, Q.RecordDelivery, Q.AppendToolCall, Q.AppendToolResult;
    match c
    case AppendMessageCall(id, m, valid) => AppendMessageSimulates(s, db, id, m, valid);
    case RecordDeliveryCall(id, d, valid) => RecordDeliverySimulates(s, db, id, d, valid);
    case AppendToolCallCall(id, call, valid) => AppendToolCallSimulates(s, db, id, call, valid);
    case AppendToolResultCall(id, result, valid) => AppendToolResultSimulates(s, db, id, result, valid);
  }

  lemma {:induction false} RunSimulates(calls: seq<Call>)
    ensures Rel(M.Run(M.EMPTY, calls), Q.Run(Q.EMPTY, calls))
  {
    hide M.Ok, M.Perform, Q.Perform;
    if calls == [] {
      assert Q.IndexesOf(map[], "") == {};
    } else {
      hide Rel;
      var before := calls[..|calls| - 1];
      RunSimulates(before);
      M.RunOk(before);
      PerformSimulates(M.Run(M.EMPTY, before), Q.Run(Q.EMPTY, before), calls[|calls| - 1]);
    }
  }

  /**
   For every sequence of calls both stores give the same answer to every next call, know the same
   sessions with the same metadata, and hold the same timelines.
   */
  lemma StoresAgree(calls: seq<Call>, next: Call, id: SessionId)
    ensures var s, db := M.Run(M.EMPTY, calls), Q.Run(Q.EMPTY, calls);
            && M.Perform(s, next).1 == Q.Perform(db, next).1
            && (id in s.sessions <==> id in db.sessions)
            && (id in s.sessions ==> db.sessions[id] == s.sessions[id].metadata && Q.Rows(db, id) == s.sessions[id].timeline)
  {
    hide M.Ok, M.Perform, Q.Perform, M.Run, Q.Run, SessionRel, Q.Rows;
    RunSimulates(calls);
    M.RunOk(calls);
    var s, db := M.Run(M.EMPTY, calls), Q.Run(Q.EMPTY, calls);
    PerformSimulates(s, db, next);
    MetadataRel(s, db, id);
    if id in s.sessions { RowsAreTimeline(s.sessions[id], db, id); }
  }

  /** A call that is refused, or answered as a repetition, leaves both stores as they were. */
  lemma RefusalsChangeNothing(calls: seq<Call>, next: Call)
    ensures var s, db := M.Run(M.EMPTY, calls), Q.Run(Q.EMPTY, calls);
            M.Perform(s, next).1 == Refused || M.Perform(s, next).1 == Duplicate ==>
              M.Perform(s, next).0 == s && Q.Perform(db, next).0 == db
  {
    hide M.Ok, M.Perform, Q.Perform, M.Run, Q.Run, Rel;
    RunSimulates(calls);
    M.RunOk(calls);
    PerformSimulates(M.Run(M.EMPTY, calls), Q.Run(Q.EMPTY, calls), next);
    RefusedInMemory(M.Run(M.EMPTY, calls), next);
    RefusedInDatabase(Q.Run(Q.EMPTY, calls), next);
  }

  lemma RefusedInMemory(s: M.Store, c: Call)
    ensures M.Perform(s, c).1 == Refused || M.Perform(s, c).1 == Duplicate ==> M.Perform(s, c).0 == s
  {
    hide Find, M.ReplaceEntry, M.AppendEntry, M.PlaceResult, SameMessage, PendingMatches, SameOutbound, SamePending, ValidDelivery;
  }

  lemma RefusedInDatabase(db: Q.Database, c: Call)
    ensures Q.Perform(db, c).1 == Refused || Q.Perform(db, c).1 == Duplicate ==> Q.Perform(db, c).0 == db
  {
    hide Q.InsertEntry, Q.ReadMessage, Q.NextIndex, SameMessage, PendingMatches, SameOutbound, SamePending, ValidDelivery;
  }

  /** Sending an accepted message or delivery again is recognised, and changes neither store. */
  lemma RepeatsAreRecognised(calls: seq<Call>, again: Call)
    requires again.AppendMessageCall? || again.RecordDeliveryCall?
    ensures var s := M.Run(M.EMPTY, calls);
            var (s', first) := M.Perform(s, again);
            first != Refused && first != Associated ==>
              && M.Perform(s', again) == (s', if again.AppendMessageCall? then Duplicate else Done)
              && Q.Perform(Q.Perform(Q.Run(Q.EMPTY, calls), again).0, again).1 == M.Perform(s', again).1
  {
    hide M.Ok, Rel, Q.Perform, Q.Run, M.Run, M.AppendMessage, M.RecordDelivery;
    var s, db := M.Run(M.EMPTY, calls), Q.Run(Q.EMPTY, calls);
    RunSimulates(calls);
    M.RunOk(calls);
    PerformSimulates(s, db, again);
    M.PerformOk(s, again);
    PerformSimulates(M.Perform(s, again).0, Q.Perform(db, again).0, again);
    if again.AppendMessageCall? {
      M.MessageRepeats(s, again.sessionId, again.message, again.valid);
    } else {
      M.DeliveryRepeats(s, again.sessionId, again.delivery, again.valid);
    }
  }

  lemma RowsAreTimeline(session: M.Session, db: Q.Database, id: SessionId)
    requires SessionRel(session, db, id)
    ensures Q.Rows(db, id) == session.timeline
  {
    hide CallsRel, ResultsRel, Q.IndexesOf, M.Spaced;
    EntriesLength(session.timeline, OrderOf(db, id), db.entries, id);
  }

  /** In the durable store, too, indexes strictly increase and a call's slot is only ever taken by its own result. */
  lemma DurableIndexesAreOrdered(calls: seq<Call>, id: SessionId, at: nat)
    requires var db := Q.Run(Q.EMPTY, calls); id in db.sessions && at < |OrderOf(db, id)|
    ensures var db := Q.Run(Q.EMPTY, calls);
            var ix, rows := OrderOf(db, id), Q.Rows(db, id);
            && |ix| == |rows| && M.Increases(ix)
            && (rows[at].CallEntry? ==>
                  match Find(rows, ResultOf(rows[at].call.runId, rows[at].call.toolCallId))
                  case None => ix[at] + 1 !in ix
                  case Some(i) => i == at + 1 && ix[i] == ix[at] + 1)
  {
    hide M.Run, Q.Run, Find, Q.Rows, OrderOf, M.Ok, Rel, SessionRel, M.SessionOk, M.Increases;
    RunSimulates(calls);
    M.RunOk(calls);
    var s, db := M.Run(M.EMPTY, calls), Q.Run(Q.EMPTY, calls);
    RelatedSession(s, db, id);
    DurableSession(s.sessions[id], db, id, at);
  }

  lemma RelatedSession(s: M.Store, db: Q.Database, id: SessionId)
    requires M.Ok(s) && Rel(s, db) && id in db.sessions
    ensures id in s.sessions && SessionRel(s.sessions[id], db, id) && M.SessionOk(s.sessions[id])
  {
    hide SessionRel, M.SessionOk, M.LocationsOk, M.SourcesOk, MessagesRel;
  }

  lemma DurableSession(s: M.Session, db: Q.Database, id: SessionId, at: nat)
    requires SessionRel(s, db, id) && M.SessionOk(s) && at < |OrderOf(db, id)|
    ensures var ix, rows := OrderOf(db, id), Q.Rows(db, id);
            && |ix| == |rows| && M.Increases(ix)
            && (rows[at].CallEntry? ==>
                  match Find(rows, ResultOf(rows[at].call.runId, rows[at].call.toolCallId))
                  case None => ix[at] + 1 !in ix
                  case Some(i) => i == at + 1 && ix[i] == ix[at] + 1)
  {
    hide Find, Q.Rows, OrderOf;
    RowsAreTimeline(s, db, id);
    var session := M.Session(s.metadata, s.timeline, OrderOf(db, id), LastOf(OrderOf(db, id)) + STRIDE);
    EntriesLength(session.timeline, OrderOf(db, id), db.entries, id);
    M.OrderedSession(session, at);
  }

  function LastOf(ix: seq<nat>): nat {
    if ix == [] then 0 else ix[|ix| - 1]
  }
}
