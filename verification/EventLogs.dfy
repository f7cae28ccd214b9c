/** Events and the in-memory event log, the simple account of numbering per run. */
module EventLogs {
  type RunId = string

  datatype Draft = Draft(runId: RunId, data: string)

  /** An event as far as numbering goes; ids and timestamps are left out. */
  datatype Event = Event(number: nat, runId: RunId, data: string)

  datatype Memory = Memory(events: seq<Event>, nextSeqByRun: map<RunId, nat>)

  const EMPTY := Memory([], map[])

  function NextSeq(m: Memory, run: RunId): nat {
    if run in m.nextSeqByRun then m.nextSeqByRun[run] else 1
  }

  function Append(m: Memory, d: Draft): (Memory, Event) {
    var e := Event(NextSeq(m, d.runId), d.runId, d.data);
    (Memory(m.events + [e], m.nextSeqByRun[d.runId := e.number + 1]), e)
  }

  function OfRun(events: seq<Event>, run: RunId): seq<Event> {
    if events == [] then []
    else
      var n := |events| - 1;
      OfRun(events[..n], run) + (if events[n].runId == run then [events[n]] else [])
  }

  function AppendAll(drafts: seq<Draft>): Memory {
    if drafts == [] then EMPTY else Append(AppendAll(drafts[..|drafts| - 1]), drafts[|drafts| - 1]).0
  }

  /** Each run is numbered 1, 2, 3 and so on, in the order of its appends. */
  predicate Numbered(events: seq<Event>, run: RunId) {
    forall i | 0 <= i < |events| :: events[i].number == i + 1 && events[i].runId == run
  }

  lemma {:induction false} AppendAllNumbers(drafts: seq<Draft>, run: RunId)
    ensures Numbered(OfRun(AppendAll(drafts).events, run), run)
    ensures NextSeq(AppendAll(drafts), run) == |OfRun(AppendAll(drafts).events, run)| + 1
  {
    if drafts != [] {
      var n := |drafts| - 1;
      AppendAllNumbers(drafts[..n], run);
      AppendAllNumbers(drafts[..n], drafts[n].runId);
      var before := AppendAll(drafts[..n]);
      AppendRead(before, drafts[n], run);
    }
  }

  /** Appending adds the new event to its own run only. */
  lemma AppendRead(m: Memory, d: Draft, run: RunId)
    ensures OfRun(Append(m, d).0.events, run)
         == OfRun(m.events, run) + (if d.runId == run then [Event(NextSeq(m, run), run, d.data)] else [])
  {
    assert Append(m, d).0.events[..|m.events|] == m.events;
  }

  class InMemoryEventLog {
    var events: seq<Event>
    var nextSeqByRun: map<RunId, nat>

    function State(): Memory
      reads this
    {
      Memory(events, nextSeqByRun)
    }

    constructor ()
      ensures State() == EMPTY
    {
      events, nextSeqByRun := [], map[];
    }

    method AppendEvent(d: Draft) returns (e: Event)
      modifies this
      ensures (State(), e) == Append(old(State()), d)
    {
      var number := if d.runId in nextSeqByRun then nextSeqByRun[d.runId] else 1;
      e := Event(number, d.runId, d.data);
      events := events + [e];
      nextSeqByRun := nextSeqByRun[d.runId := number + 1];
    }
  }
}
