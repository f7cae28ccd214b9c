/**
 The process-local conversation store: sessions with a timeline and a parallel list of indexes, a
 location for every observed message, and the deliveries that wait for their message.
 */
module InMemoryConversations {
  import opened Common
  import opened ConversationFacts

  datatype Session = Session(metadata: Metadata, timeline: seq<Entry>, indexes: seq<nat>, next: nat)

  datatype Location = Location(sessionId: SessionId, entry: Entry)

  datatype Store = Store(
    sessions: map<SessionId, Session>, locations: map<MessageKey, Location>, pending: map<MessageKey, Pending>)

  const EMPTY := Store(map[], map[], map[])

  // ---------------------------------------------------------------- operations

  function NewSession(m: Message): Session {
    Session(Metadata(m.route, m.contentFormat), [], [], STRIDE)
  }

  function AppendEntry(s: Session, e: Entry): Session {
    s.(timeline := s.timeline + [e], indexes := s.indexes + [s.next], next := s.next + STRIDE)
  }

  /** The session a new message goes to, unless the message contradicts its fixed metadata. */
  function EnsureSession(s: Store, id: SessionId, m: Message): Option<Session> {
    if Blank(id) then None
    else if id !in s.sessions then Some(NewSession(m))
    else if s.sessions[id].metadata == Metadata(m.route, m.contentFormat) then Some(s.sessions[id])
    else None
  }

  function ReplaceEntry(s: Session, key: MessageKey, e: Entry): Session {
    match Find(s.timeline, MessageOf(key))
    case Some(i) => s.(timeline := s.timeline[i := e])
    case None => s
  }

  function PendingFor(s: Store, key: MessageKey): Option<Pending> {
    if key in s.pending then Some(s.pending[key]) else None
  }

  /** A message that was observed before. */
  function AppendKnown(s: Store, id: SessionId, m: Message, loc: Location): (Store, Reply)
    requires loc.entry.MessageEntry?
  {
    var key := ConversationFacts.KeyOf(m);
    var pending := PendingFor(s, key);
    if id != loc.sessionId || !SameMessage(loc.entry.observed, m) then (s, Refused)
    else if pending.Some? && !PendingMatches(pending.value, id, m.route, m.contentFormat) then (s, Refused)
    else if (loc.entry.outbound.Some? || pending.Some?) && !m.sender.isSelf then (s, Refused)
    else if pending.None? then (s, Duplicate)
    else if loc.entry.outbound.Some? && !SameOutbound(loc.entry.outbound.value, pending.value.outbound) then (s, Refused)
    else
      var waited := s.(pending := s.pending - {key});
      if loc.entry.outbound.Some? then (waited, Associated)
      else if id !in s.sessions then (s, Refused)
      else
        var e := loc.entry.(outbound := Some(pending.value.outbound));
        (waited.(sessions := s.sessions[id := ReplaceEntry(s.sessions[id], key, e)],
                 locations := s.locations[key := Location(id, e)]), Associated)
  }

  function AppendMessage(s: Store, id: SessionId, m: Message, valid: bool): (Store, Reply) {
    var key := ConversationFacts.KeyOf(m);
    var pending := PendingFor(s, key);
    if !valid then (s, Refused)
    else if key in s.locations && s.locations[key].entry.MessageEntry? then AppendKnown(s, id, m, s.locations[key])
    else if pending.Some? && (!PendingMatches(pending.value, id, m.route, m.contentFormat) || !m.sender.isSelf) then (s, Refused)
    else
      match EnsureSession(s, id, m)
      case None => (s, Refused)
      case Some(session) =>
        var e := MessageEntry(key, m, if pending.None? then None else Some(pending.value.outbound));
        (Store(s.sessions[id := AppendEntry(session, e)], s.locations[key := Location(id, e)], s.pending - {key}), Appended)
  }

  /** Whether a session may take facts of a delivery to it. */
  predicate MetadataFits(s: Store, target: SessionId, d: Delivery) {
    target in s.sessions && s.sessions[target].metadata == Metadata(d.route, d.contentFormat)
  }

  predicate HasCall(s: Store, id: SessionId, runId: string, toolCallId: string) {
    id in s.sessions && Find(s.sessions[id].timeline, CallOf(runId, toolCallId)).Some?
  }

  /** The association of a message that was observed already. */
  function AssociateKnown(s: Store, target: SessionId, d: Delivery, loc: Location): (Store, Reply)
    requires loc.entry.MessageEntry?
  {
    var outbound := PendingOf(target, d).outbound;
    if target != loc.sessionId || !MetadataFits(s, target, d) || !loc.entry.observed.sender.isSelf then (s, Refused)
    else if loc.entry.outbound.Some? then (s, if SameOutbound(loc.entry.outbound.value, outbound) then Done else Refused)
    else
      var e := loc.entry.(outbound := Some(outbound));
      (s.(sessions := s.sessions[target := ReplaceEntry(s.sessions[target], d.receipt, e)],
          locations := s.locations[d.receipt := Location(target, e)]), Done)
  }

  function RecordDelivery(s: Store, target: SessionId, d: Delivery, valid: bool): (Store, Reply) {
    if !ValidDelivery(target, d, valid) || !HasCall(s, d.sourceSessionId, d.runId, d.toolCallId) then (s, Refused)
    else if d.receipt in s.locations && s.locations[d.receipt].entry.MessageEntry? then AssociateKnown(s, target, d, s.locations[d.receipt])
    else if target in s.sessions && !MetadataFits(s, target, d) then (s, Refused)
    else if d.receipt in s.pending then (s, if SamePending(s.pending[d.receipt], PendingOf(target, d)) then Done else Refused)
    else (s.(pending := s.pending[d.receipt := PendingOf(target, d)]), Done)
  }

  function AppendToolCall(s: Store, id: SessionId, call: ToolCall, valid: bool): (Store, Reply) {
    if id !in s.sessions || !NamesCall(call.runId, call.toolCallId, call.toolName) || !OnePayload(call) || !valid
       || HasCall(s, id, call.runId, call.toolCallId)
    then (s, Refused)
    else (s.(sessions := s.sessions[id := AppendEntry(s.sessions[id], CallEntry(call))]), Done)
  }

  /** A result goes right behind its call, at the index after the call's. */
  function PlaceResult(s: Session, at: nat, e: Entry): Session
    requires at < |s.timeline| && at < |s.indexes|
  {
    s.(timeline := InsertAt(s.timeline, at + 1, e), indexes := Placed(s.indexes, at))
  }

  function AppendToolResult(s: Store, id: SessionId, result: ToolResult, valid: bool): (Store, Reply) {
    if id !in s.sessions || !NamesCall(result.runId, result.toolCallId, result.toolName)
       || !HasCall(s, id, result.runId, result.toolCallId)
    then (s, Refused)
    else
      var session := s.sessions[id];
      var at := Find(session.timeline, CallOf(result.runId, result.toolCallId)).value;
      if session.timeline[at].call.toolName != result.toolName || !valid
         || Find(session.timeline, ResultOf(result.runId, result.toolCallId)).Some? || at >= |session.indexes|
      then (s, Refused)
      else (s.(sessions := s.sessions[id := PlaceResult(session, at, ResultEntry(result))]), Done)
  }

  function Perform(s: Store, c: Call): (Store, Reply) {
    match c
    case AppendMessageCall(id, m, valid) => AppendMessage(s, id, m, valid)
    case RecordDeliveryCall(id, d, valid) => RecordDelivery(s, id, d, valid)
    case AppendToolCallCall(id, call, valid) => AppendToolCall(s, id, call, valid)
    case AppendToolResultCall(id, result, valid) => AppendToolResult(s, id, result, valid)
  }

  // ---------------------------------------------------------------- one session

  predicate IsResult(e: Entry) {
    e.ResultEntry?
  }

  /** The gap a new last entry keeps to an entry. */
  function Gap(e: Entry): nat {
    if IsResult(e) then STRIDE - 1 else STRIDE
  }

  /** What stands directly behind an entry: its own result at the next index, or something after a gap. */
  predicate Follows(before: Entry, beforeIndex: nat, e: Entry, index: nat) {
    if IsResult(e) then
      && before.CallEntry? && index == beforeIndex + 1
      && before.call.runId == e.result.runId && before.call.toolCallId == e.result.toolCallId
      && before.call.toolName == e.result.toolName
    else index >= beforeIndex + Gap(before)
  }

  ghost predicate Spaced(timeline: seq<Entry>, indexes: seq<nat>) {
    && |indexes| == |timeline| && (timeline != [] ==> !IsResult(timeline[0]))
    && forall i | 0 < i < |timeline| :: Follows(timeline[i - 1], indexes[i - 1], timeline[i], indexes[i])
  }

  ghost predicate SessionOk(s: Session) {
    && DistinctIds(s.timeline) && Spaced(s.timeline, s.indexes)
    && (s.timeline != [] ==> s.next >= s.indexes[|s.indexes| - 1] + Gap(s.timeline[|s.timeline| - 1]))
  }

  lemma AppendSpaced(timeline: seq<Entry>, indexes: seq<nat>, e: Entry, next: nat)
    requires Spaced(timeline, indexes) && !IsResult(e)
    requires timeline != [] ==> next >= indexes[|indexes| - 1] + Gap(timeline[|timeline| - 1])
    ensures Spaced(timeline + [e], indexes + [next])
  {
  }

  lemma ReplaceSpaced(timeline: seq<Entry>, indexes: seq<nat>, n: nat, e: Entry)
    requires Spaced(timeline, indexes) && n < |timeline| && timeline[n].MessageEntry? && e.MessageEntry?
    ensures Spaced(timeline[n := e], indexes)
  {
    var t := timeline[n := e];
    forall i | 0 < i < |t| ensures Follows(t[i - 1], indexes[i - 1], t[i], indexes[i]) {
      assert Follows(timeline[i - 1], indexes[i - 1], timeline[i], indexes[i]);
    }
  }

  /** Only a call's own result may stand right behind it. */
  lemma ResultBehind(timeline: seq<Entry>, indexes: seq<nat>, at: nat)
    requires DistinctIds(timeline) && Spaced(timeline, indexes) && at + 1 < |timeline| && timeline[at].CallEntry? && IsResult(timeline[at + 1])
    ensures Find(timeline, ResultOf(timeline[at].call.runId, timeline[at].call.toolCallId)) == Some(at + 1)
  {
    assert Follows(timeline[at], indexes[at], timeline[at + 1], indexes[at + 1]);
    Found(timeline, at + 1);
  }

  /** The slot behind a call is free until its own result takes it. */
  lemma SlotFree(timeline: seq<Entry>, indexes: seq<nat>, at: nat)
    requires DistinctIds(timeline) && Spaced(timeline, indexes) && at < |timeline| && timeline[at].CallEntry?
    requires Find(timeline, ResultOf(timeline[at].call.runId, timeline[at].call.toolCallId)).None?
    ensures at + 1 < |timeline| ==> !IsResult(timeline[at + 1]) && indexes[at + 1] >= indexes[at] + STRIDE
    ensures indexes[at] + 1 !in indexes
  {
    SpacedIncreases(timeline, indexes);
    if at + 1 < |timeline| {
      assert Follows(timeline[at], indexes[at], timeline[at + 1], indexes[at + 1]);
      if IsResult(timeline[at + 1]) { ResultBehind(timeline, indexes, at); }
    }
    forall i | 0 <= i < |indexes| ensures indexes[i] != indexes[at] + 1 {
      assert i < at ==> indexes[i] < indexes[at];
      assert i > at ==> indexes[i] >= indexes[at + 1];
    }
  }

  lemma SpacedIncreases(timeline: seq<Entry>, indexes: seq<nat>)
    requires Spaced(timeline, indexes)
    ensures Increases(indexes)
  {
    forall i | 0 < i < |indexes| ensures indexes[i - 1] < indexes[i] {
      assert Follows(timeline[i - 1], indexes[i - 1], timeline[i], indexes[i]);
    }
    StepsIncrease(indexes);
  }

  predicate Increases(indexes: seq<nat>) {
    forall i, k | 0 <= i < k < |indexes| :: indexes[i] < indexes[k]
  }

  lemma {:induction false} StepsIncrease(indexes: seq<nat>)
    requires forall i | 0 < i < |indexes| :: indexes[i - 1] < indexes[i]
    ensures Increases(indexes)
  {
    if indexes != [] {
      var n := |indexes| - 1;
      StepsIncrease(indexes[..n]);
      if n > 0 { assert indexes[..n][n - 1] < indexes[n]; }
    }
  }

  lemma PlaceSpaced(timeline: seq<Entry>, indexes: seq<nat>, at: nat, e: Entry)
    requires DistinctIds(timeline) && Spaced(timeline, indexes) && at < |timeline| && timeline[at].CallEntry? && e.ResultEntry?
    requires Follows(timeline[at], indexes[at], e, indexes[at] + 1) && Find(timeline, IdOf(e)).None?
    ensures Spaced(InsertAt(timeline, at + 1, e), Placed(indexes, at))
  {
    hide InsertAt, Placed, Find, DistinctIds;
    SlotFree(timeline, indexes, at);
    hide Follows;
    var t, x := InsertAt(timeline, at + 1, e), Placed(indexes, at);
    InsertedAt(timeline, at + 1, e, 0);
    PlacedAt(indexes, at, 0);
    forall i | 0 < i < |t| ensures Follows(t[i - 1], x[i - 1], t[i], x[i]) {
      InsertedAt(timeline, at + 1, e, i);
      InsertedAt(timeline, at + 1, e, i - 1);
      PlacedAt(indexes, at, i);
      PlacedAt(indexes, at, i - 1);
      if i == at + 2 { GapLeft(timeline[at + 1], indexes[at], indexes[at + 1], e); }
    }
  }

  lemma GapLeft(after: Entry, index: nat, afterIndex: nat, e: Entry)
    requires !IsResult(after) && IsResult(e) && afterIndex >= index + STRIDE
    ensures Follows(e, index + 1, after, afterIndex)
  {
  }

  /** The indexes with one more right behind position `at`. */
  function Placed(indexes: seq<nat>, at: nat): (r: seq<nat>)
    requires at < |indexes|
  {
    indexes[..at + 1] + [indexes[at] + 1] + indexes[at + 1..]
  }

  lemma PlacedAt(indexes: seq<nat>, at: nat, i: nat)
    requires at < |indexes| && i <= |indexes|
    ensures |Placed(indexes, at)| == |indexes| + 1
    ensures Placed(indexes, at)[i] == if i == at + 1 then indexes[at] + 1 else indexes[Before(at + 1, i)]
  {
  }

  // ---------------------------------------------------------------- the whole store

  ghost predicate SessionsOk(s: Store) {
    forall id | id in s.sessions :: SessionOk(s.sessions[id])
  }

  /** The message index agrees with the timelines. */
  ghost predicate LocationsOk(s: Store) {
    && (forall key | key in s.locations :: LocationOk(s, key))
    && (forall id, key | id in s.sessions && Find(s.sessions[id].timeline, MessageOf(key)).Some? ::
          key in s.locations && s.locations[key].sessionId == id)
  }

  ghost predicate LocationOk(s: Store, key: MessageKey)
    requires key in s.locations
  {
    var loc := s.locations[key];
    && loc.entry.MessageEntry? && loc.entry.key == key && loc.sessionId in s.sessions
    && var timeline := s.sessions[loc.sessionId].timeline;
    && Find(timeline, MessageOf(key)).Some? && timeline[Find(timeline, MessageOf(key)).value] == loc.entry
  }

  /** No message both waits for its observation and has been observed. */
  ghost predicate Separate(s: Store) {
    s.pending.Keys !! s.locations.Keys
  }

  predicate Sourced(s: Store, o: Outbound) {
    HasCall(s, o.sourceSessionId, o.runId, o.toolCallId)
  }

  /** Every recorded or waiting association points to an existing source tool call. */
  ghost predicate SourcesOk(s: Store) {
    && (forall key | key in s.pending :: Sourced(s, s.pending[key].outbound))
    && (forall key | key in s.locations && s.locations[key].entry.MessageEntry? && s.locations[key].entry.outbound.Some? ::
          Sourced(s, s.locations[key].entry.outbound.value))
  }

  ghost predicate Ok(s: Store) {
    SessionsOk(s) && LocationsOk(s) && Separate(s) && SourcesOk(s)
  }

  /** What becomes of one session's timeline; the tool calls of all sessions stay. */
  ghost predicate KeepsCalls(s: Store, s': Store) {
    forall id, run, call | HasCall(s, id, run, call) :: HasCall(s', id, run, call)
  }

  lemma SourcesKept(s: Store, s': Store)
    requires SourcesOk(s) && KeepsCalls(s, s')
    requires forall key | key in s'.pending :: Sourced(s', s'.pending[key].outbound) || (key in s.pending && s'.pending[key] == s.pending[key])
    requires forall key | key in s'.locations && s'.locations[key].entry.MessageEntry? && s'.locations[key].entry.outbound.Some? ::
               Sourced(s', s'.locations[key].entry.outbound.value) || (key in s.locations && s'.locations[key] == s.locations[key])
    ensures SourcesOk(s')
  {
    forall o | Sourced(s, o) ensures Sourced(s', o) { assert HasCall(s, o.sourceSessionId, o.runId, o.toolCallId); }
    hide HasCall, Sourced;
  }

  // ---------------------------------------------------------------- appending a message

  lemma EnterOk(s: Store, id: SessionId, session: Session, e: Entry, pending: map<MessageKey, Pending>)
    requires Ok(s) && e.MessageEntry? && e.key !in s.locations && SessionOk(session)
    requires if id in s.sessions then session == s.sessions[id] else session.timeline == []
    requires pending.Keys <= s.pending.Keys - {e.key} && forall key | key in pending :: pending[key] == s.pending[key]
    requires e.outbound.Some? ==> Sourced(s, e.outbound.value)
    ensures Ok(Store(s.sessions[id := AppendEntry(session, e)], s.locations[e.key := Location(id, e)], pending))
  {
    hide SessionsOk, SessionOk, SourcesOk, LocationsOk, Find, KeepsCalls, HasCall, AppendEntry;
    var s' := Store(s.sessions[id := AppendEntry(session, e)], s.locations[e.key := Location(id, e)], pending);
    AppendedSession(s, id, session, e);
    SessionsWith(s, s', id);
    EnterLocations(s, s', id, session, e);
    EnterKeepsCalls(s, id, session, e, s');
    SourcesKept(s, s');
  }

  lemma SessionsWith(s: Store, s': Store, id: SessionId)
    requires SessionsOk(s) && id in s'.sessions && SessionOk(s'.sessions[id]) && s'.sessions == s.sessions[id := s'.sessions[id]]
    ensures SessionsOk(s')
  {
    hide SessionOk;
  }

  lemma AppendedSession(s: Store, id: SessionId, session: Session, e: Entry)
    requires LocationsOk(s) && SessionOk(session) && e.MessageEntry? && e.key !in s.locations
    requires if id in s.sessions then session == s.sessions[id] else session.timeline == []
    ensures SessionOk(AppendEntry(session, e))
  {
    hide Find, LocationsOk;
    FreshKey(s, id, session, e.key);
    AppendSpaced(session.timeline, session.indexes, e, session.next);
    DistinctAppend(session.timeline, e);
  }

  lemma DistinctAppend(timeline: seq<Entry>, e: Entry)
    requires DistinctIds(timeline) && Find(timeline, IdOf(e)).None?
    ensures DistinctIds(timeline + [e])
  {
  }

  lemma EnterLocations(s: Store, s': Store, id: SessionId, session: Session, e: Entry)
    requires LocationsOk(s) && e.MessageEntry? && e.key !in s.locations
    requires if id in s.sessions then session == s.sessions[id] else session.timeline == []
    requires s'.sessions == s.sessions[id := AppendEntry(session, e)] && s'.locations == s.locations[e.key := Location(id, e)]
    ensures LocationsOk(s')
  {
    hide Find, AppendEntry, LocationOk, LocationsOk;
    var more := AppendEntry(session, e).timeline;
    forall key ensures Find(more, MessageOf(key))
                    == if Find(session.timeline, MessageOf(key)).Some? then Find(session.timeline, MessageOf(key))
                       else if e.key == key then Some(|session.timeline|) else None
    {
      EntryAppended(session, e, MessageOf(key));
    }
    forall key | key in s'.locations ensures LocationOk(s', key) { EnterLocation(s, s', id, session, e, key); }
    EnterIndexed(s, s', id, session, e);
  }

  lemma EntryAppended(session: Session, e: Entry, id: EntryId)
    ensures var more := AppendEntry(session, e).timeline;
            && |more| == |session.timeline| + 1 && more[|session.timeline|] == e
            && (forall i | 0 <= i < |session.timeline| :: more[i] == session.timeline[i])
            && Find(more, id) == if Find(session.timeline, id).Some? then Find(session.timeline, id)
                                 else if IdOf(e) == id then Some(|session.timeline|) else None
  {
    FindAppend(session.timeline, e, id);
  }

  lemma EnterLocation(s: Store, s': Store, id: SessionId, session: Session, e: Entry, key: MessageKey)
    requires LocationsOk(s) && e.MessageEntry? && e.key !in s.locations && key in s'.locations
    requires if id in s.sessions then session == s.sessions[id] else session.timeline == []
    requires s'.sessions == s.sessions[id := AppendEntry(session, e)] && s'.locations == s.locations[e.key := Location(id, e)]
    ensures LocationOk(s', key)
  {
    hide Find, AppendEntry, LocationsOk;
    EntryAppended(session, e, MessageOf(key));
    FreshKey(s, id, session, e.key);
    if key != e.key { Located(s, key); }
  }

  lemma FreshKey(s: Store, id: SessionId, session: Session, key: MessageKey)
    requires LocationsOk(s) && key !in s.locations
    requires if id in s.sessions then session == s.sessions[id] else session.timeline == []
    ensures Find(session.timeline, MessageOf(key)).None?
  {
    EmptyFinds(session.timeline);
    hide Find, LocationOk;
  }

  lemma Located(s: Store, key: MessageKey)
    requires LocationsOk(s) && key in s.locations
    ensures LocationOk(s, key)
  {
    hide Find, LocationOk;
  }

  lemma EnterIndexed(s: Store, s': Store, id: SessionId, session: Session, e: Entry)
    requires LocationsOk(s) && e.MessageEntry? && e.key !in s.locations
    requires if id in s.sessions then session == s.sessions[id] else session.timeline == []
    requires s'.sessions == s.sessions[id := AppendEntry(session, e)] && s'.locations == s.locations[e.key := Location(id, e)]
    requires forall key | key in s'.locations :: LocationOk(s', key)
    requires forall key :: Find(AppendEntry(session, e).timeline, MessageOf(key)).Some?
               ==> Find(session.timeline, MessageOf(key)).Some? || e.key == key
    ensures LocationsOk(s')
  {
    hide Find, AppendEntry, LocationOk;
    assert forall key | Find(session.timeline, MessageOf(key)).Some? :: id in s.sessions by { EmptyFinds(session.timeline); }
    forall x, key | x in s'.sessions && Find(s'.sessions[x].timeline, MessageOf(key)).Some?
      ensures key in s'.locations && s'.locations[key].sessionId == x
    {
      if x == id && key != e.key { assert Find(s.sessions[id].timeline, MessageOf(key)).Some?; }
    }
  }

  lemma EmptyFinds(timeline: seq<Entry>)
    ensures timeline == [] ==> forall id :: Find(timeline, id).None?
  {
  }

  lemma EnterKeepsCalls(s: Store, id: SessionId, session: Session, e: Entry, s': Store)
    requires if id in s.sessions then session == s.sessions[id] else session.timeline == []
    requires s'.sessions == s.sessions[id := AppendEntry(session, e)]
    ensures KeepsCalls(s, s')
    ensures forall o | Sourced(s, o) :: Sourced(s', o)
  {
    forall x, run, call | HasCall(s, x, run, call) ensures HasCall(s', x, run, call) {
      if x == id { FindAppend(session.timeline, e, CallOf(run, call)); }
    }
    assert forall o | Sourced(s, o) :: HasCall(s, o.sourceSessionId, o.runId, o.toolCallId);
  }

  lemma AppendMessageOk(s: Store, id: SessionId, m: Message, valid: bool)
    requires Ok(s)
    ensures Ok(AppendMessage(s, id, m, valid).0) && !AppendMessage(s, id, m, valid).1.Associated?
  {
    hide SessionsOk, SourcesOk, LocationsOk, SessionOk, Find, SameMessage, Blank, EnsureSession, AppendEntry;
    var key := ConversationFacts.KeyOf(m);
    LocatedIsMessage(s, key);
    if valid && key !in s.locations && EnsureSession(s, id, m).Some? {
      EnsuredOk(s, id, m);
      if key in s.pending { PendingSourced(s, key); }
      var pending := PendingFor(s, key);
      EnterOk(s, id, EnsureSession(s, id, m).value, MessageEntry(key, m, if pending.None? then None else Some(pending.value.outbound)),
              s.pending - {key});
    }
  }

  lemma LocatedIsMessage(s: Store, key: MessageKey)
    requires LocationsOk(s)
    ensures key in s.locations ==> s.locations[key].entry.MessageEntry? && s.locations[key].entry.key == key && s.locations[key].sessionId in s.sessions
  {
    assert key in s.locations ==> LocationOk(s, key);
    hide Find;
  }

  lemma EnsuredOk(s: Store, id: SessionId, m: Message)
    requires SessionsOk(s) && EnsureSession(s, id, m).Some?
    ensures SessionOk(EnsureSession(s, id, m).value)
    ensures if id in s.sessions then EnsureSession(s, id, m).value == s.sessions[id] else EnsureSession(s, id, m).value.timeline == []
  {
    hide Gap, Blank;
  }

  lemma PendingSourced(s: Store, key: MessageKey)
    requires SourcesOk(s) && key in s.pending
    ensures Sourced(s, s.pending[key].outbound)
  {
    hide HasCall;
  }

  // ---------------------------------------------------------------- recording a delivery

  lemma AssociateOk(s: Store, target: SessionId, e: Entry, o: Outbound)
    requires Ok(s) && e.MessageEntry? && e.key in s.locations && s.locations[e.key] == Location(target, e) && Sourced(s, o)
    ensures var e' := e.(outbound := Some(o));
            target in s.sessions &&
            Ok(s.(sessions := s.sessions[target := ReplaceEntry(s.sessions[target], e.key, e')],
                  locations := s.locations[e.key := Location(target, e')]))
  {
    hide SessionsOk, SessionOk, SourcesOk, LocationsOk, Find, KeepsCalls, HasCall, ReplaceEntry;
    LocatedIsMessage(s, e.key);
    var e' := e.(outbound := Some(o));
    var s' := s.(sessions := s.sessions[target := ReplaceEntry(s.sessions[target], e.key, e')], locations := s.locations[e.key := Location(target, e')]);
    AssociateSession(s, target, e, e');
    SessionsWith(s, s', target);
    AssociateLocations(s, s', target, e, e');
    SourcesKept(s, s');
  }

  lemma AssociateSession(s: Store, target: SessionId, e: Entry, e': Entry)
    requires SessionsOk(s) && LocationsOk(s) && e.MessageEntry? && e'.MessageEntry? && e'.key == e.key
    requires e.key in s.locations && s.locations[e.key] == Location(target, e) && target in s.sessions
    ensures SessionOk(ReplaceEntry(s.sessions[target], e.key, e'))
  {
    assert LocationOk(s, e.key);
    var session := s.sessions[target];
    assert SessionOk(session);
    hide Find, LocationsOk, SessionsOk, DistinctIds, Spaced;
    var n := Find(session.timeline, MessageOf(e.key)).value;
    FindReplace(session.timeline, n, e', MessageOf(e.key));
    ReplaceSpaced(session.timeline, session.indexes, n, e');
  }

  lemma AssociateLocations(s: Store, s': Store, target: SessionId, e: Entry, e': Entry)
    requires LocationsOk(s) && e.MessageEntry? && e'.MessageEntry? && e'.key == e.key
    requires e.key in s.locations && s.locations[e.key] == Location(target, e) && target in s.sessions
    requires s'.sessions == s.sessions[target := ReplaceEntry(s.sessions[target], e.key, e')]
    requires s'.locations == s.locations[e.key := Location(target, e')]
    ensures LocationsOk(s') && KeepsCalls(s, s') && (forall o | Sourced(s, o) :: Sourced(s', o))
  {
    assert LocationOk(s, e.key);
    hide LocationsOk;
    var timeline := s.sessions[target].timeline;
    var n := Find(timeline, MessageOf(e.key)).value;
    forall id ensures Find(timeline[n := e'], id) == Find(timeline, id) { FindReplace(timeline, n, e', id); }
    hide Find;
    assert s'.sessions[target].timeline == timeline[n := e'];
    hide ReplaceEntry;
    ReplacedLocations(s, s', target, n, e, e');
    forall o | Sourced(s, o) ensures Sourced(s', o) { assert HasCall(s, o.sourceSessionId, o.runId, o.toolCallId); }
  }

  lemma ReplacedLocations(s: Store, s': Store, target: SessionId, n: nat, e: Entry, e': Entry)
    requires LocationsOk(s) && e.MessageEntry? && e'.MessageEntry? && e'.key == e.key
    requires e.key in s.locations && s.locations[e.key] == Location(target, e) && target in s.sessions && target in s'.sessions
    requires Find(s.sessions[target].timeline, MessageOf(e.key)) == Some(n) && s'.sessions[target].timeline == s.sessions[target].timeline[n := e']
    requires s'.sessions == s.sessions[target := s'.sessions[target]]
    requires forall id :: Find(s'.sessions[target].timeline, id) == Find(s.sessions[target].timeline, id)
    requires s'.locations == s.locations[e.key := Location(target, e')]
    ensures LocationsOk(s')
  {
    hide Find;
    forall key | key in s'.locations ensures LocationOk(s', key) {
      assert LocationOk(s, key);
    }
  }

  lemma RecordDeliveryOk(s: Store, target: SessionId, d: Delivery, valid: bool)
    requires Ok(s)
    ensures Ok(RecordDelivery(s, target, d, valid).0)
  {
    hide SessionsOk, SourcesOk, LocationsOk, Find, SameOutbound, SamePending, ValidDelivery, ReplaceEntry;
    var o := PendingOf(target, d).outbound;
    LocatedIsMessage(s, d.receipt);
    assert HasCall(s, d.sourceSessionId, d.runId, d.toolCallId) <==> Sourced(s, o);
    hide HasCall, Sourced;
    if RecordDelivery(s, target, d, valid).0 != s {
      if d.receipt in s.locations {
        AssociateOk(s, target, s.locations[d.receipt].entry, o);
      } else {
        WaitOk(s, s.(pending := s.pending[d.receipt := PendingOf(target, d)]), d.receipt);
      }
    }
  }

  /** Only the deliveries that wait change. */
  lemma WaitOk(s: Store, s': Store, key: MessageKey)
    requires Ok(s) && s'.sessions == s.sessions && s'.locations == s.locations && key !in s.locations
    requires key in s'.pending && s'.pending == s.pending[key := s'.pending[key]] && Sourced(s, s'.pending[key].outbound)
    ensures Ok(s')
  {
    hide SessionOk, Find;
    assert SessionsOk(s') == SessionsOk(s);
    hide SessionsOk;
    assert LocationsOk(s') by { hide SourcesOk; forall k | k in s'.locations ensures LocationOk(s', k) { assert LocationOk(s, k); } }
    hide LocationsOk;
    assert forall x, run, call :: HasCall(s', x, run, call) == HasCall(s, x, run, call);
    hide HasCall;
    SourcesKept(s, s');
  }

  // ---------------------------------------------------------------- tool calls and results

  /** A timeline that keeps its messages and calls, with something else added. */
  lemma ToolEntryOk(s: Store, id: SessionId, session: Session)
    requires Ok(s) && id in s.sessions && SessionOk(session)
    requires forall x :: Find(s.sessions[id].timeline, x).Some? ==>
               Find(session.timeline, x).Some? && session.timeline[Find(session.timeline, x).value] == s.sessions[id].timeline[Find(s.sessions[id].timeline, x).value]
    requires forall key :: Find(session.timeline, MessageOf(key)).Some? ==> Find(s.sessions[id].timeline, MessageOf(key)).Some?
    ensures Ok(s.(sessions := s.sessions[id := session]))
  {
    hide Find, SessionOk, SessionsOk, LocationsOk, SourcesOk, KeepsCalls, HasCall;
    var s' := s.(sessions := s.sessions[id := session]);
    SessionsWith(s, s', id);
    ToolEntryLocations(s, id, session);
    ToolEntryCalls(s, id, session);
    SourcesKept(s, s');
  }

  lemma ToolEntryLocations(s: Store, id: SessionId, session: Session)
    requires LocationsOk(s) && id in s.sessions
    requires forall x :: Find(s.sessions[id].timeline, x).Some? ==>
               Find(session.timeline, x).Some? && session.timeline[Find(session.timeline, x).value] == s.sessions[id].timeline[Find(s.sessions[id].timeline, x).value]
    requires forall key :: Find(session.timeline, MessageOf(key)).Some? ==> Find(s.sessions[id].timeline, MessageOf(key)).Some?
    ensures LocationsOk(s.(sessions := s.sessions[id := session]))
  {
    hide Find;
    var s' := s.(sessions := s.sessions[id := session]);
    forall key | key in s'.locations ensures LocationOk(s', key) { assert LocationOk(s, key); }
  }

  lemma ToolEntryCalls(s: Store, id: SessionId, session: Session)
    requires id in s.sessions && forall x :: Find(s.sessions[id].timeline, x).Some? ==> Find(session.timeline, x).Some?
    ensures KeepsCalls(s, s.(sessions := s.sessions[id := session]))
  {
    hide Find;
  }

  lemma AppendToolCallOk(s: Store, id: SessionId, call: ToolCall, valid: bool)
    requires Ok(s)
    ensures Ok(AppendToolCall(s, id, call, valid).0)
  {
    hide Ok, Blank, Find, SessionOk, OnePayload;
    if AppendToolCall(s, id, call, valid).0 != s {
      var session := s.sessions[id];
      var e := CallEntry(call);
      OneSession(s, id);
      assert SessionOk(AppendEntry(session, e)) by { AppendedCall(session, e); }
      forall x ensures Find(session.timeline + [e], x)
                    == if Find(session.timeline, x).Some? then Find(session.timeline, x) else if IdOf(e) == x then Some(|session.timeline|) else None
      {
        FindAppend(session.timeline, e, x);
      }
      ToolEntryOk(s, id, AppendEntry(session, e));
    }
  }

  lemma OneSession(s: Store, id: SessionId)
    requires Ok(s) && id in s.sessions
    ensures SessionOk(s.sessions[id])
  {
    hide SessionOk;
  }

  lemma AppendedCall(session: Session, e: Entry)
    requires SessionOk(session) && e.CallEntry? && Find(session.timeline, IdOf(e)).None?
    ensures SessionOk(AppendEntry(session, e))
  {
    hide Find;
    AppendSpaced(session.timeline, session.indexes, e, session.next);
    DistinctAppend(session.timeline, e);
  }

  lemma AppendToolResultOk(s: Store, id: SessionId, result: ToolResult, valid: bool)
    requires Ok(s)
    ensures Ok(AppendToolResult(s, id, result, valid).0)
  {
    hide Ok, Blank, Find, SessionOk, InsertAt, Placed;
    if AppendToolResult(s, id, result, valid).0 != s {
      var session := s.sessions[id];
      var at := Find(session.timeline, CallOf(result.runId, result.toolCallId)).value;
      var e := ResultEntry(result);
      OneSession(s, id);
      PlacedSession(session, at, e);
      forall x ensures Find(session.timeline, x).Some? ==>
                         Find(InsertAt(session.timeline, at + 1, e), x).Some?
                         && InsertAt(session.timeline, at + 1, e)[Find(InsertAt(session.timeline, at + 1, e), x).value] == session.timeline[Find(session.timeline, x).value]
               ensures Find(InsertAt(session.timeline, at + 1, e), x).Some? ==> Find(session.timeline, x).Some? || x == IdOf(e)
      {
        PlacedFind(session.timeline, at, e, x);
      }
      ToolEntryOk(s, id, PlaceResult(session, at, e));
    }
  }

  lemma PlacedFind(timeline: seq<Entry>, at: nat, e: Entry, x: EntryId)
    requires DistinctIds(timeline) && at < |timeline| && Find(timeline, IdOf(e)).None?
    ensures var t := InsertAt(timeline, at + 1, e);
            && (Find(timeline, x).Some? ==> Find(t, x).Some? && t[Find(t, x).value] == timeline[Find(timeline, x).value])
            && (Find(t, x).Some? ==> Find(timeline, x).Some? || x == IdOf(e))
  {
    hide Find, InsertAt, DistinctIds;
    FindInsert(timeline, at + 1, e, x);
    if Find(timeline, x).Some? {
      var i := Find(timeline, x).value;
      InsertedAt(timeline, at + 1, e, if i >= at + 1 then i + 1 else i);
    }
  }

  lemma PlacedSession(session: Session, at: nat, e: Entry)
    requires SessionOk(session) && at < |session.timeline| && e.ResultEntry? && session.timeline[at].CallEntry?
    requires IdOf(session.timeline[at]) == CallOf(e.result.runId, e.result.toolCallId) && session.timeline[at].call.toolName == e.result.toolName
    requires Find(session.timeline, IdOf(e)).None?
    ensures DistinctIds(session.timeline) && |session.indexes| == |session.timeline| && SessionOk(PlaceResult(session, at, e))
  {
    var timeline, indexes := session.timeline, session.indexes;
    hide Find, InsertAt, Placed, DistinctIds, Spaced;
    assert |indexes| == |timeline| by { SpacedLength(timeline, indexes); }
    assert Follows(timeline[at], indexes[at], e, indexes[at] + 1);
    DistinctInsert(timeline, at + 1, e);
    PlaceSpaced(timeline, indexes, at, e);
    var n := |timeline|;
    InsertedAt(timeline, at + 1, e, n);
    PlacedAt(indexes, at, n);
  }

  lemma SpacedLength(timeline: seq<Entry>, indexes: seq<nat>)
    requires Spaced(timeline, indexes)
    ensures |indexes| == |timeline|
  {
  }

  lemma PerformOk(s: Store, c: Call)
    requires Ok(s)
    ensures Ok(Perform(s, c).0) && !Perform(s, c).1.Associated?
  {
    hide Ok, AppendMessage, RecordDelivery, AppendToolCall, AppendToolResult;
    match c
    case AppendMessageCall(id, m, valid) => AppendMessageOk(s, id, m, valid);
    case RecordDeliveryCall(id, d, valid) => RecordDeliveryOk(s, id, d, valid); NotAssociated(s, c);
    case AppendToolCallCall(id, call, valid) => AppendToolCallOk(s, id, call, valid); NotAssociated(s, c);
    case AppendToolResultCall(id, result, valid) => AppendToolResultOk(s, id, result, valid); NotAssociated(s, c);
  }

  lemma NotAssociated(s: Store, c: Call)
    ensures !c.AppendMessageCall? ==> !Perform(s, c).1.Associated?
  {
    hide AppendMessage, Find, ReplaceEntry, PlaceResult;
  }

  // ---------------------------------------------------------------- every run

  function Run(s: Store, calls: seq<Call>): Store {
    if calls == [] then s else Perform(Run(s, calls[..|calls| - 1]), calls[|calls| - 1]).0
  }

  lemma {:induction false} RunOk(calls: seq<Call>)
    ensures Ok(Run(EMPTY, calls))
  {
    if calls != [] {
      RunOk(calls[..|calls| - 1]);
      PerformOk(Run(EMPTY, calls[..|calls| - 1]), calls[|calls| - 1]);
    }
  }

  /**
   In every reachable store waiting and observed messages are disjoint and the message index agrees
   with the timelines, so appending a message is never answered by "associated".
   */
  lemma NeverAssociated(calls: seq<Call>, id: SessionId, m: Message, valid: bool)
    ensures var s := Run(EMPTY, calls);
            && Separate(s) && LocationsOk(s) && !AppendMessage(s, id, m, valid).1.Associated?
  {
    RunOk(calls);
    AppendMessageOk(Run(EMPTY, calls), id, m, valid);
  }

  /** Every recorded or waiting association of a reachable store names a tool call of its source session. */
  lemma AssociationsAreSourced(calls: seq<Call>)
    ensures SourcesOk(Run(EMPTY, calls))
  {
    RunOk(calls);
  }

  /**
   In every reachable session the indexes strictly increase, a result stands right behind its call
   at the next index, and no other entry ever takes that slot.
   */
  lemma IndexesAreOrdered(calls: seq<Call>, id: SessionId, at: nat)
    requires id in Run(EMPTY, calls).sessions && at < |Run(EMPTY, calls).sessions[id].timeline|
    ensures var session := Run(EMPTY, calls).sessions[id];
            && |session.indexes| == |session.timeline| && Increases(session.indexes)
            && (session.timeline[at].CallEntry? ==>
                  var run, call := session.timeline[at].call.runId, session.timeline[at].call.toolCallId;
                  match Find(session.timeline, ResultOf(run, call))
                  case None => session.indexes[at] + 1 !in session.indexes
                  case Some(i) => i == at + 1 && session.indexes[i] == session.indexes[at] + 1)
  {
    RunOk(calls);
    OneSession(Run(EMPTY, calls), id);
    var session := Run(EMPTY, calls).sessions[id];
    hide Ok, Find, Run;
    OrderedSession(session, at);
  }

  lemma OrderedSession(session: Session, at: nat)
    requires SessionOk(session) && at < |session.timeline|
    ensures |session.indexes| == |session.timeline| && Increases(session.indexes)
    ensures session.timeline[at].CallEntry? ==>
              var run, call := session.timeline[at].call.runId, session.timeline[at].call.toolCallId;
              match Find(session.timeline, ResultOf(run, call))
              case None => session.indexes[at] + 1 !in session.indexes
              case Some(i) => i == at + 1 && session.indexes[i] == session.indexes[at] + 1
  {
    hide Find;
    SpacedIncreases(session.timeline, session.indexes);
    if session.timeline[at].CallEntry? {
      var call := session.timeline[at].call;
      match Find(session.timeline, ResultOf(call.runId, call.toolCallId))
      case None => SlotFree(session.timeline, session.indexes, at);
      case Some(i) =>
        assert i > 0 && Follows(session.timeline[i - 1], session.indexes[i - 1], session.timeline[i], session.indexes[i]);
        assert IdOf(session.timeline[i - 1]) == IdOf(session.timeline[at]);
    }
  }

  // ---------------------------------------------------------------- the order of receipt and observation

  /** Both orders need the same of a delivery and its message. */
  ghost predicate Meet(s: Store, id: SessionId, m: Message, target: SessionId, d: Delivery) {
    && target == id && d.route == m.route && d.contentFormat == m.contentFormat && m.sender.isSelf
    && !Blank(id) && (id in s.sessions ==> s.sessions[id].metadata == Metadata(m.route, m.contentFormat))
    && HasCall(s, d.sourceSessionId, d.runId, d.toolCallId)
  }

  function AssociatedStore(s: Store, id: SessionId, m: Message, d: Delivery): Store {
    var session := if id in s.sessions then s.sessions[id] else NewSession(m);
    var e := MessageEntry(ConversationFacts.KeyOf(m), m, Some(PendingOf(id, d).outbound));
    Store(s.sessions[id := AppendEntry(session, e)], s.locations[e.key := Location(id, e)], s.pending)
  }

  lemma RecordThenAppend(s: Store, id: SessionId, m: Message, mv: bool, target: SessionId, d: Delivery, dv: bool)
    requires ConversationFacts.KeyOf(m) == d.receipt && d.receipt !in s.locations && d.receipt !in s.pending
    ensures var (s1, r1) := RecordDelivery(s, target, d, dv);
            var (s2, r2) := AppendMessage(s1, id, m, mv);
            && (r1 == Done && r2 == Appended <==> mv && ValidDelivery(target, d, dv) && Meet(s, id, m, target, d))
            && (r1 == Done && r2 == Appended ==> s2 == AssociatedStore(s, id, m, d))
  {
    hide ValidDelivery, Find, Blank, AppendEntry;
    assert s.pending[d.receipt := PendingOf(target, d)] - {d.receipt} == s.pending;
  }

  lemma AppendThenRecord(s: Store, id: SessionId, m: Message, mv: bool, target: SessionId, d: Delivery, dv: bool)
    requires LocationsOk(s)
    requires ConversationFacts.KeyOf(m) == d.receipt && d.receipt !in s.locations && d.receipt !in s.pending
    ensures var (t1, q1) := AppendMessage(s, id, m, mv);
            var (t2, q2) := RecordDelivery(t1, target, d, dv);
            && (q1 == Appended && q2 == Done <==> mv && ValidDelivery(target, d, dv) && Meet(s, id, m, target, d))
            && (q1 == Appended && q2 == Done ==> t2 == AssociatedStore(s, id, m, d))
  {
    hide ValidDelivery, Find, Blank, AppendEntry, LocationsOk, EnsureSession, ReplaceEntry, HasCall;
    var t1 := AppendMessage(s, id, m, mv).0;
    if mv && EnsureSession(s, id, m).Some? {
      EnsuredExactly(s, id, m);
      var session := if id in s.sessions then s.sessions[id] else NewSession(m);
      var e := MessageEntry(d.receipt, m, None);
      assert s.pending - {d.receipt} == s.pending;
      assert t1 == Store(s.sessions[id := AppendEntry(session, e)], s.locations[d.receipt := Location(id, e)], s.pending);
      AppendedKeepsFacts(s, t1, id, session, e, d);
      var e' := MessageEntry(d.receipt, m, Some(PendingOf(id, d).outbound));
      FreshKey(s, id, session, d.receipt);
      ReplaceAppended(session, e, e');
    } else {
      EnsuredExactly(s, id, m);
    }
  }

  lemma EnsuredExactly(s: Store, id: SessionId, m: Message)
    ensures EnsureSession(s, id, m).Some? <==> !Blank(id) && (id in s.sessions ==> s.sessions[id].metadata == Metadata(m.route, m.contentFormat))
    ensures EnsureSession(s, id, m).Some? ==>
              EnsureSession(s, id, m).value == (if id in s.sessions then s.sessions[id] else NewSession(m))
              && EnsureSession(s, id, m).value.metadata == Metadata(m.route, m.contentFormat)
  {
    hide Blank;
  }

  lemma AppendedKeepsFacts(s: Store, s': Store, id: SessionId, session: Session, e: Entry, d: Delivery)
    requires e.MessageEntry? && (if id in s.sessions then session == s.sessions[id] else session.timeline == [])
    requires s'.sessions == s.sessions[id := AppendEntry(session, e)]
    ensures HasCall(s', d.sourceSessionId, d.runId, d.toolCallId) == HasCall(s, d.sourceSessionId, d.runId, d.toolCallId)
    ensures id in s'.sessions && s'.sessions[id].metadata == session.metadata
  {
    EmptyFinds(session.timeline);
    FindAppend(session.timeline, e, CallOf(d.runId, d.toolCallId));
    hide Find;
  }

  lemma ReplaceAppended(session: Session, e: Entry, e': Entry)
    requires e.MessageEntry? && e'.MessageEntry? && e'.key == e.key && Find(session.timeline, MessageOf(e.key)).None?
    ensures ReplaceEntry(AppendEntry(session, e), e.key, e') == AppendEntry(session, e')
  {
    hide Find;
    FindAppend(session.timeline, e, MessageOf(e.key));
    assert (session.timeline + [e])[|session.timeline| := e'] == session.timeline + [e'];
  }

  /**
   For a message that is neither observed nor waited for, recording its delivery and observing it
   succeed in either order on the same inputs, and then leave the same store.
   */
  lemma OrderIndependent(calls: seq<Call>, id: SessionId, m: Message, mv: bool, target: SessionId, d: Delivery, dv: bool)
    requires var s := Run(EMPTY, calls); ConversationFacts.KeyOf(m) == d.receipt && d.receipt !in s.locations && d.receipt !in s.pending
    ensures var s := Run(EMPTY, calls);
            var (s1, r1) := RecordDelivery(s, target, d, dv);
            var (s2, r2) := AppendMessage(s1, id, m, mv);
            var (t1, q1) := AppendMessage(s, id, m, mv);
            var (t2, q2) := RecordDelivery(t1, target, d, dv);
            && (r1 == Done && r2 == Appended <==> q1 == Appended && q2 == Done)
            && (r1 == Done && r2 == Appended ==> s2 == t2)
  {
    RunOk(calls);
    hide Run, AppendMessage, RecordDelivery, LocationsOk, Meet, ValidDelivery;
    RecordThenAppend(Run(EMPTY, calls), id, m, mv, target, d, dv);
    AppendThenRecord(Run(EMPTY, calls), id, m, mv, target, d, dv);
  }

  // ---------------------------------------------------------------- repetition

  lemma MessageRepeats(s: Store, id: SessionId, m: Message, valid: bool)
    ensures AppendMessage(s, id, m, valid).1 !in {Refused, Associated} ==>
              var s' := AppendMessage(s, id, m, valid).0;
              AppendMessage(s', id, m, valid) == (s', Duplicate)
  {
    hide Find, ReplaceEntry, AppendEntry, PendingMatches, EnsureSession, SameMessage;
    SameAsItself(m);
  }

  lemma SameAsItself(m: Message)
    ensures SameMessage(m, m)
  { }

  lemma DeliveryRepeats(s: Store, target: SessionId, d: Delivery, valid: bool)
    requires Ok(s)
    ensures RecordDelivery(s, target, d, valid).1 !in {Refused, Associated} ==>
              var s' := RecordDelivery(s, target, d, valid).0;
              RecordDelivery(s', target, d, valid) == (s', Done)
  {
    hide Ok, SessionsOk, LocationsOk, HasCall, ValidDelivery, Find, ReplaceEntry, SameOutbound, SamePending, PendingOf, Sourced;
    RecordDeliveryOk(s, target, d, valid);
    var s' := RecordDelivery(s, target, d, valid).0;
    if RecordDelivery(s, target, d, valid).1 !in {Refused, Associated} {
      DoneIsKept(s, target, d, valid);
      assert HasCall(s', d.sourceSessionId, d.runId, d.toolCallId) by { KeptIsSourced(s', target, d); }
      KeptIsDone(s', target, d, valid);
    }
  }

  /** The delivery is associated with its observed message, or waits for it. */
  predicate Kept(s: Store, target: SessionId, d: Delivery) {
    if d.receipt in s.locations && s.locations[d.receipt].entry.MessageEntry? then
      var loc := s.locations[d.receipt];
      loc.sessionId == target && MetadataFits(s, target, d) && loc.entry.observed.sender.isSelf
      && loc.entry.outbound == Some(PendingOf(target, d).outbound)
    else
      (target in s.sessions ==> MetadataFits(s, target, d)) && d.receipt in s.pending && s.pending[d.receipt] == PendingOf(target, d)
  }

  lemma DoneIsKept(s: Store, target: SessionId, d: Delivery, valid: bool)
    requires RecordDelivery(s, target, d, valid).1 !in {Refused, Associated}
    ensures Kept(RecordDelivery(s, target, d, valid).0, target, d) && ValidDelivery(target, d, valid)
  {
    hide HasCall, ValidDelivery, Find, SameOutbound, SamePending;
    ForallSame(PendingOf(target, d));
  }

  lemma ForallSame(p: Pending)
    ensures forall q: Pending :: (SamePending(q, p) <==> q == p)
    ensures forall o: Outbound :: (SameOutbound(o, p.outbound) <==> o == p.outbound)
  {
    forall q: Pending ensures SamePending(q, p) <==> q == p { SameParts(q, p); }
    forall o: Outbound ensures SameOutbound(o, p.outbound) <==> o == p.outbound { SameParts(p.(outbound := o), p); }
  }

  lemma SameParts(p: Pending, q: Pending)
    ensures SamePending(p, q) <==> p == q
    ensures SameOutbound(p.outbound, q.outbound) <==> p.outbound == q.outbound
  { }

  lemma KeptIsSourced(s: Store, target: SessionId, d: Delivery)
    requires Ok(s) && Kept(s, target, d)
    ensures HasCall(s, d.sourceSessionId, d.runId, d.toolCallId)
  {
    hide SessionsOk, LocationsOk, HasCall;
    assert Sourced(s, PendingOf(target, d).outbound);
  }

  lemma KeptIsDone(s: Store, target: SessionId, d: Delivery, valid: bool)
    requires Kept(s, target, d) && ValidDelivery(target, d, valid) && HasCall(s, d.sourceSessionId, d.runId, d.toolCallId)
    ensures RecordDelivery(s, target, d, valid) == (s, Done)
  {
    hide HasCall, ValidDelivery, Find, SameOutbound, SamePending;
    ForallSame(PendingOf(target, d));
  }

  // ---------------------------------------------------------------- the store object

  class InMemoryConversationSessionStore {
    var sessions: map<SessionId, Session>
    var messageLocations: map<MessageKey, Location>
    var pendingDeliveries: map<MessageKey, Pending>

    function State(): Store
      reads this
    {
      Store(sessions, messageLocations, pendingDeliveries)
    }

    constructor ()
      ensures State() == EMPTY
    {
      sessions, messageLocations, pendingDeliveries := map[], map[], map[];
    }

    method AppendChannelMessage(id: SessionId, m: Message, valid: bool) returns (r: Reply)
      modifies this
      ensures (State(), r) == AppendMessage(old(State()), id, m, valid)
    {
      hide Find, SameMessage, SameOutbound, ReplaceEntry;
      if !valid { return Refused; }
      var key := ConversationFacts.KeyOf(m);
      var pending := if key in pendingDeliveries then Some(pendingDeliveries[key]) else None;
      if key in messageLocations && messageLocations[key].entry.MessageEntry? {
        r := AppendKnownMessage(id, m, messageLocations[key]);
        return;
      }
      if pending.Some? {
        if !PendingMatches(pending.value, id, m.route, m.contentFormat) { return Refused; }
        if !m.sender.isSelf { return Refused; }
      }
      if Blank(id) { return Refused; }
      if id !in sessions {
        sessions := sessions[id := Session(Metadata(m.route, m.contentFormat), [], [], STRIDE)];
      } else if sessions[id].metadata != Metadata(m.route, m.contentFormat) {
        return Refused;
      }
      var e := MessageEntry(key, m, if pending.None? then None else Some(pending.value.outbound));
      var session := sessions[id];
      sessions := sessions[id := session.(timeline := session.timeline + [e], indexes := session.indexes + [session.next],
                                          next := session.next + STRIDE)];
      assert sessions == old(sessions)[id := sessions[id]];
      messageLocations := messageLocations[key := Location(id, e)];
      pendingDeliveries := pendingDeliveries - {key};
      return Appended;
    }

    method AppendKnownMessage(id: SessionId, m: Message, existing: Location) returns (r: Reply)
      requires existing.entry.MessageEntry?
      modifies this
      ensures (State(), r) == AppendKnown(old(State()), id, m, existing)
    {
      hide Find, SameMessage, SameOutbound, ReplaceEntry;
      var key := ConversationFacts.KeyOf(m);
      if id != existing.sessionId || !SameMessage(existing.entry.observed, m) { return Refused; }
      var pending := if key in pendingDeliveries then Some(pendingDeliveries[key]) else None;
      if pending.Some? && !PendingMatches(pending.value, id, m.route, m.contentFormat) { return Refused; }
      if (existing.entry.outbound.Some? || pending.Some?) && !m.sender.isSelf { return Refused; }
      if pending.None? { return Duplicate; }
      if existing.entry.outbound.Some? {
        if !SameOutbound(existing.entry.outbound.value, pending.value.outbound) { return Refused; }
      } else {
        if id !in sessions { return Refused; }
        var e := existing.entry.(outbound := Some(pending.value.outbound));
        sessions := sessions[id := ReplaceEntry(sessions[id], key, e)];
        messageLocations := messageLocations[key := Location(id, e)];
      }
      pendingDeliveries := pendingDeliveries - {key};
      return Associated;
    }

    method RecordOutboundDelivery(target: SessionId, d: Delivery, valid: bool) returns (r: Reply)
      modifies this
      ensures (State(), r) == RecordDelivery(old(State()), target, d, valid)
    {
      hide Find, SameOutbound, SamePending, ReplaceEntry, ValidDelivery;
      if !ValidDelivery(target, d, valid) { return Refused; }
      if !HasCall(State(), d.sourceSessionId, d.runId, d.toolCallId) { return Refused; }
      var pending := PendingOf(target, d);
      var key := d.receipt;
      if key in messageLocations && messageLocations[key].entry.MessageEntry? {
        var existing := messageLocations[key];
        if target != existing.sessionId { return Refused; }
        if target !in sessions || sessions[target].metadata != Metadata(d.route, d.contentFormat) { return Refused; }
        if !existing.entry.observed.sender.isSelf { return Refused; }
        if existing.entry.outbound.Some? {
          return if SameOutbound(existing.entry.outbound.value, pending.outbound) then Done else Refused;
        }
        var e := existing.entry.(outbound := Some(pending.outbound));
        sessions := sessions[target := ReplaceEntry(sessions[target], key, e)];
        messageLocations := messageLocations[key := Location(target, e)];
        return Done;
      }
      if target in sessions && sessions[target].metadata != Metadata(d.route, d.contentFormat) { return Refused; }
      if key in pendingDeliveries {
        return if SamePending(pendingDeliveries[key], pending) then Done else Refused;
      }
      pendingDeliveries := pendingDeliveries[key := pending];
      return Done;
    }

    method AppendAgentToolCall(id: SessionId, call: ToolCall, valid: bool) returns (r: Reply)
      modifies this`sessions
      ensures (State(), r) == AppendToolCall(old(State()), id, call, valid)
    {
      hide Find;
      if id !in sessions { return Refused; }
      if !NamesCall(call.runId, call.toolCallId, call.toolName) || !OnePayload(call) || !valid { return Refused; }
      var session := sessions[id];
      if Find(session.timeline, CallOf(call.runId, call.toolCallId)).Some? { return Refused; }
      sessions := sessions[id := session.(timeline := session.timeline + [CallEntry(call)], indexes := session.indexes + [session.next],
                                          next := session.next + STRIDE)];
      return Done;
    }

    method AppendAgentToolResult(id: SessionId, result: ToolResult, valid: bool) returns (r: Reply)
      modifies this`sessions
      ensures (State(), r) == AppendToolResult(old(State()), id, result, valid)
    {
      hide Find, InsertAt, Placed;
      if id !in sessions { return Refused; }
      if !NamesCall(result.runId, result.toolCallId, result.toolName) { return Refused; }
      var session := sessions[id];
      var found := Find(session.timeline, CallOf(result.runId, result.toolCallId));
      if found.None? { return Refused; }
      var at := found.value;
      if session.timeline[at].call.toolName != result.toolName { return Refused; }
      if Find(session.timeline, ResultOf(result.runId, result.toolCallId)).Some? || !valid || at >= |session.indexes| { return Refused; }
      sessions := sessions[id := session.(timeline := InsertAt(session.timeline, at + 1, ResultEntry(result)),
                                          indexes := Placed(session.indexes, at))];
      return Done;
    }
  }
}
