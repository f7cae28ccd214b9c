/**
 Starting and closing the server: the two execution layers are stopped together, and the store owner
 is closed after them, however `close` meets a start that goes on, fails or has succeeded.
 */
module ServerLifecycle {
  import opened Common

  datatype State = Ready | Starting | Running | Closing | Closed | Failed

  /** Where the start operation stands; `CleaningUp` remembers whether a close was requested. */
  datatype StartPhase = Idle | Preflighting(index: nat) | StartingChannels | CleaningUp(asked: bool) | Over

  datatype Execution = Up | Stopping(channelsDone: bool, phase3Done: bool)

  datatype Cleanup = NotAsked | AwaitingExecution | ClosingStore | Cleaned

  datatype ClosePhase = NotClosing | AwaitingStart | AwaitingCleanup | Done

  datatype LogEvent = WorkBegan | WorkEnded | StopsChannels | StopsPhase3 | ChannelsStopped | Phase3Stopped
                    | StoreCloses | StoreClosed | CloseRequested | BecameRunning

  datatype Server = Server(preflights: nat, state: State, start: StartPhase, execution: Execution, cleanup: Cleanup,
    close: ClosePhase, log: seq<LogEvent>)

  function Log(s: Server, e: LogEvent): Server {
    s.(log := s.log + [e])
  }

  function StopExecution(s: Server): Server {
    if s.execution.Up? then Log(Log(s.(execution := Stopping(false, false)), StopsChannels), StopsPhase3) else s
  }

  function CleanUp(s: Server): Server {
    if s.cleanup == NotAsked then StopExecution(s).(cleanup := AwaitingExecution) else s
  }

  /** The next preflight, or the channels once there is none left. */
  function BeginWork(s: Server, index: nat): Server {
    Log(s.(start := if index < s.preflights then Preflighting(index) else StartingChannels), WorkBegan)
  }

  function StartServer(s: Server): Server {
    if s.state != Ready then s else BeginWork(s.(state := Starting), 0)
  }

  function FailStart(s: Server): Server {
    CleanUp(s.(start := CleaningUp(s.state == Closing)))
  }

  function PreflightSettled(s: Server, index: nat, ok: bool): Server {
    var ended := Log(s, WorkEnded);
    if ok && s.state == Starting then BeginWork(ended, index + 1) else FailStart(ended)
  }

  function ChannelsStarted(s: Server, ok: bool): Server {
    var ended := Log(s, WorkEnded);
    if ok && s.state == Starting then Log(ended.(state := Running, start := Over), BecameRunning) else FailStart(ended)
  }

  function CloseServer(s: Server): Server {
    if s.close != NotClosing || s.state == Closed || s.state == Failed then s
    else
      var requested := Log(s.(state := Closing), CloseRequested);
      if s.state == Starting then StopExecution(requested).(close := AwaitingStart)
      else CleanUp(requested).(close := AwaitingCleanup)
  }

  datatype Step =
    | StartStep | CloseStep
    | PreflightStep(ok: bool) | ChannelsStep(ok: bool)
    | ChannelsStoppedStep | Phase3StoppedStep
    | ExecutionStoppedStep | StoreClosedStep
    | StartCleanedStep | CloseJoinsStep | CloseDoneStep

  predicate Enabled(s: Server, step: Step) {
    match step
    case PreflightStep(_) => s.start.Preflighting?
    case ChannelsStep(_) => s.start.StartingChannels?
    case ChannelsStoppedStep => s.execution.Stopping? && !s.execution.channelsDone
    case Phase3StoppedStep => s.execution.Stopping? && !s.execution.phase3Done
    case ExecutionStoppedStep => s.cleanup == AwaitingExecution && s.execution == Stopping(true, true)
    case StoreClosedStep => s.cleanup == ClosingStore
    case StartCleanedStep => s.start.CleaningUp? && s.cleanup == Cleaned
    case CloseJoinsStep => s.close == AwaitingStart && s.start == Over
    case CloseDoneStep => s.close == AwaitingCleanup && s.cleanup == Cleaned
    case _ => true
  }

  function Perform(s: Server, step: Step): Server
    requires Enabled(s, step)
  {
    match step
    case StartStep => StartServer(s)
    case CloseStep => CloseServer(s)
    case PreflightStep(ok) => PreflightSettled(s, s.start.index, ok)
    case ChannelsStep(ok) => ChannelsStarted(s, ok)
    case ChannelsStoppedStep => Log(s.(execution := s.execution.(channelsDone := true)), ChannelsStopped)
    case Phase3StoppedStep => Log(s.(execution := s.execution.(phase3Done := true)), Phase3Stopped)
    case ExecutionStoppedStep => Log(s.(cleanup := ClosingStore), StoreCloses)
    case StoreClosedStep => Log(s.(cleanup := Cleaned), StoreClosed)
    case StartCleanedStep => s.(start := Over, state := if s.start.asked then Closed else Failed)
    case CloseJoinsStep => CleanUp(s).(close := AwaitingCleanup)
    case CloseDoneStep => s.(state := Closed, close := Done)
  }

  function Apply(s: Server, step: Step): Server {
    if Enabled(s, step) then Perform(s, step) else s
  }

  function Run(preflights: nat, steps: seq<Step>): Server {
    if steps == [] then Server(preflights, Ready, Idle, Up, NotAsked, NotClosing, [])
    else Apply(Run(preflights, steps[..|steps| - 1]), steps[|steps| - 1])
  }

  // ---------------------------------------------------------------- the invariant

  predicate Working(s: Server) {
    s.start.Preflighting? || s.start.StartingChannels?
  }

  /** How the memoised operations fit together. */
  predicate Fits(s: Server) {
    && (Working(s) ==> s.cleanup == NotAsked && (s.state == Starting || s.state == Closing) && (s.state == Closing <==> s.close == AwaitingStart))
    && (s.start == Idle ==> s.close != AwaitingStart && (s.state == Ready <==> s.close == NotClosing))
    && (s.start.CleaningUp? ==> s.cleanup != NotAsked && s.state in {Starting, Closing} && s.close in {NotClosing, AwaitingStart})
    && (s.start.CleaningUp? ==> (s.state == Starting <==> s.close == NotClosing) && (s.start.asked ==> s.state == Closing))
    && (s.cleanup != NotAsked ==> s.execution.Stopping?)
    && (s.cleanup == ClosingStore || s.cleanup == Cleaned ==> s.execution == Stopping(true, true))
    && (s.close in {AwaitingCleanup, Done} ==> s.cleanup != NotAsked)
    && (s.close == Done ==> s.cleanup == Cleaned && s.state == Closed)
    && (s.state == Ready ==> s.start == Idle && s.close == NotClosing && s.cleanup == NotAsked && s.execution == Up)
    && (s.state == Starting ==> s.close == NotClosing && (Working(s) || s.start.CleaningUp?))
    && (s.state == Running ==> s.start == Over && s.close == NotClosing && s.execution == Up && s.cleanup == NotAsked)
    && (s.state == Failed ==> s.cleanup == Cleaned && s.start == Over)
    && (s.state == Closed ==> s.cleanup == Cleaned)
    && (s.close != NotClosing ==> s.state in {Closing, Closed, Failed})
    && (s.state == Closing ==> s.close != NotClosing)
    && (s.start == Over && s.close == AwaitingStart ==> s.cleanup == Cleaned)
    && (s.start == Idle && s.execution.Stopping? ==> s.cleanup != NotAsked)
    && (s.execution.Stopping? && s.cleanup == NotAsked ==> s.close == AwaitingStart)
  }

  /** What each record so far says about where the operations stand. */
  predicate Recorded(s: Server) {
    && Count(s.log, WorkBegan) == Count(s.log, WorkEnded) + (if Working(s) then 1 else 0)
    && Count(s.log, StopsChannels) == Count(s.log, StopsPhase3) == (if s.execution.Stopping? then 1 else 0)
    && Count(s.log, ChannelsStopped) == (if s.execution.Stopping? && s.execution.channelsDone then 1 else 0)
    && Count(s.log, Phase3Stopped) == (if s.execution.Stopping? && s.execution.phase3Done then 1 else 0)
    && Count(s.log, StoreCloses) == (if s.cleanup == ClosingStore || s.cleanup == Cleaned then 1 else 0)
    && Count(s.log, StoreClosed) == (if s.cleanup == Cleaned then 1 else 0)
    && Count(s.log, CloseRequested) == (if s.close == NotClosing then 0 else 1)
  }

  /** Both layers have settled and no start work is in flight when the store closes, and none begins later. */
  ghost predicate StoreCloseSafe(log: seq<LogEvent>) {
    forall p | 0 <= p < |log| && log[p] == StoreCloses ::
      && Count(log[..p], ChannelsStopped) == 1 && Count(log[..p], Phase3Stopped) == 1
      && Count(log[..p], WorkBegan) == Count(log[..p], WorkEnded)
      && (forall q | p < q < |log| :: log[q] != WorkBegan && log[q] != StoreCloses)
  }

  ghost predicate NeverRunsAfterClose(log: seq<LogEvent>) {
    forall p, q | 0 <= p < q < |log| && log[p] == CloseRequested :: log[q] != BecameRunning
  }

  ghost predicate Inv(s: Server) {
    Fits(s) && Recorded(s) && StoreCloseSafe(s.log) && NeverRunsAfterClose(s.log)
  }

  lemma FitsKeeps(s: Server, step: Step)
    requires Fits(s) && Enabled(s, step)
    ensures Fits(Perform(s, step))
  { }

  lemma Logged(log: seq<LogEvent>, e: LogEvent)
    ensures forall x: LogEvent :: Count(log + [e], x) == Count(log, x) + (if x == e then 1 else 0)
  {
    forall x: LogEvent ensures Count(log + [e], x) == Count(log, x) + (if x == e then 1 else 0) { CountAppend(log, e, x); }
  }

  lemma PreflightRecorded(s: Server, ok: bool)
    requires Fits(s) && Recorded(s) && s.start.Preflighting?
    ensures Recorded(PreflightSettled(s, s.start.index, ok))
  {
    hide Count;
    EndsWork(s);
    Logged(s.log + [WorkEnded], WorkBegan);
  }

  lemma ChannelsRecorded(s: Server, ok: bool)
    requires Fits(s) && Recorded(s) && s.start.StartingChannels?
    ensures Recorded(ChannelsStarted(s, ok))
  {
    hide Count;
    EndsWork(s);
    Logged(s.log + [WorkEnded], BecameRunning);
  }

  lemma CloseRecorded(s: Server)
    requires Fits(s) && Recorded(s)
    ensures Recorded(CloseServer(s))
  {
    hide Count;
    Logged(s.log, CloseRequested);
    Logged(s.log + [CloseRequested], StopsChannels);
    Logged(s.log + [CloseRequested] + [StopsChannels], StopsPhase3);
  }

  lemma RecordedKeeps(s: Server, step: Step)
    requires Fits(s) && Recorded(s) && Enabled(s, step)
    ensures Recorded(Perform(s, step))
  {
    hide Count, PreflightSettled, ChannelsStarted, CloseServer;
    match step
    case StartStep => Logged(s.log, WorkBegan);
    case CloseStep => CloseRecorded(s);
    case PreflightStep(ok) => PreflightRecorded(s, ok);
    case ChannelsStep(ok) => ChannelsRecorded(s, ok);
    case ChannelsStoppedStep => Logged(s.log, ChannelsStopped);
    case Phase3StoppedStep => Logged(s.log, Phase3Stopped);
    case ExecutionStoppedStep => Logged(s.log, StoreCloses);
    case StoreClosedStep => Logged(s.log, StoreClosed);
    case StartCleanedStep =>
    case CloseJoinsStep =>
      Logged(s.log, StopsChannels);
      Logged(s.log + [StopsChannels], StopsPhase3);
    case CloseDoneStep =>
  }

  lemma EndsWork(s: Server)
    ensures forall x: LogEvent :: Count(s.log + [WorkEnded], x) == Count(s.log, x) + (if x == WorkEnded then 1 else 0)
    ensures forall x: LogEvent ::
      Count(s.log + [WorkEnded] + [StopsChannels] + [StopsPhase3], x) == Count(s.log, x) + (if x == WorkEnded || x == StopsChannels || x == StopsPhase3 then 1 else 0)
  {
    hide Count;
    Logged(s.log, WorkEnded);
    Logged(s.log + [WorkEnded], StopsChannels);
    Logged(s.log + [WorkEnded] + [StopsChannels], StopsPhase3);
  }

  /** One more record keeps the claims about the log, if it may come now. */
  predicate MayCome(s: Server, e: LogEvent) {
    && (e == StoreCloses || e == WorkBegan ==> Count(s.log, StoreCloses) == 0)
    && (e == StoreCloses ==> Count(s.log, ChannelsStopped) == 1 && Count(s.log, Phase3Stopped) == 1)
    && (e == StoreCloses ==> Count(s.log, WorkBegan) == Count(s.log, WorkEnded))
    && (e == BecameRunning ==> Count(s.log, CloseRequested) == 0)
  }

  lemma {:induction false} CountedIn(log: seq<LogEvent>, p: nat)
    requires p < |log|
    ensures Count(log, log[p]) > 0
  {
    if p < |log| - 1 { CountedIn(log[..|log| - 1], p); }
  }

  lemma LogKeeps(s: Server, e: LogEvent)
    requires StoreCloseSafe(s.log) && NeverRunsAfterClose(s.log) && MayCome(s, e)
    ensures StoreCloseSafe(Log(s, e).log) && NeverRunsAfterClose(Log(s, e).log)
  {
    hide Count;
    var log := Log(s, e).log;
    forall p | 0 <= p < |s.log| ensures Count(s.log, s.log[p]) > 0 { CountedIn(s.log, p); }
    forall p | 0 <= p < |log| && log[p] == StoreCloses
      ensures Count(log[..p], ChannelsStopped) == 1 && Count(log[..p], Phase3Stopped) == 1
      ensures Count(log[..p], WorkBegan) == Count(log[..p], WorkEnded)
      ensures forall q | p < q < |log| :: log[q] != WorkBegan && log[q] != StoreCloses
    {
      assert log[..p] == s.log[..p];
      assert s.log[..|s.log|] == s.log;
    }
  }

  lemma LogsKept(s: Server, step: Step)
    requires Inv(s) && Enabled(s, step)
    ensures StoreCloseSafe(Perform(s, step).log) && NeverRunsAfterClose(Perform(s, step).log)
  {
    hide Count, StoreCloseSafe, NeverRunsAfterClose;
    match step
    case StartStep => if s.state == Ready { LogKeeps(s, WorkBegan); }
    case CloseStep => LogKeeps(s, CloseRequested); StopLogs(Log(s, CloseRequested));
    case PreflightStep(ok) => LogKeeps(s, WorkEnded); Logged(s.log, WorkEnded); LogKeeps(Log(s, WorkEnded), WorkBegan); StopLogs(Log(s, WorkEnded));
    case ChannelsStep(ok) =>
      LogKeeps(s, WorkEnded);
      Logged(s.log, WorkEnded);
      StopLogs(Log(s, WorkEnded));
      if s.state == Starting { LogKeeps(Log(s, WorkEnded), BecameRunning); }
    case ChannelsStoppedStep => LogKeeps(s, ChannelsStopped);
    case Phase3StoppedStep => LogKeeps(s, Phase3Stopped);
    case ExecutionStoppedStep => LogKeeps(s, StoreCloses);
    case StoreClosedStep => LogKeeps(s, StoreClosed);
    case StartCleanedStep =>
    case CloseJoinsStep => StopLogs(s);
    case CloseDoneStep =>
  }

  lemma StopLogs(s: Server)
    requires StoreCloseSafe(s.log) && NeverRunsAfterClose(s.log)
    ensures StoreCloseSafe(s.log + [StopsChannels] + [StopsPhase3]) && NeverRunsAfterClose(s.log + [StopsChannels] + [StopsPhase3])
  {
    hide Count, StoreCloseSafe, NeverRunsAfterClose;
    LogKeeps(s, StopsChannels);
    LogKeeps(Log(s, StopsChannels), StopsPhase3);
  }

  lemma {:induction false} RunKeeps(preflights: nat, steps: seq<Step>)
    ensures Inv(Run(preflights, steps))
  {
    if steps != [] {
      hide Fits, Recorded, StoreCloseSafe, NeverRunsAfterClose, Perform, Enabled;
      var s := Run(preflights, steps[..|steps| - 1]);
      var step := steps[|steps| - 1];
      RunKeeps(preflights, steps[..|steps| - 1]);
      if Enabled(s, step) {
        FitsKeeps(s, step);
        RecordedKeeps(s, step);
        LogsKept(s, step);
      }
    }
  }

  // ---------------------------------------------------------------- the claims

  /** Each layer and the store owner are closed at most once, the store only after both layers have settled. */
  lemma ClosedOnceInOrder(preflights: nat, steps: seq<Step>)
    ensures Count(Run(preflights, steps).log, StopsChannels) <= 1 && Count(Run(preflights, steps).log, StopsPhase3) <= 1
    ensures Count(Run(preflights, steps).log, StoreCloses) <= 1
    ensures StoreCloseSafe(Run(preflights, steps).log)
  {
    hide StoreCloseSafe;
    RunKeeps(preflights, steps);
  }

  lemma RunningEndsWithClose(preflights: nat, steps: seq<Step>)
    ensures NeverRunsAfterClose(Run(preflights, steps).log)
    ensures Run(preflights, steps).state == Running ==> Count(Run(preflights, steps).log, CloseRequested) == 0
  {
    hide NeverRunsAfterClose;
    RunKeeps(preflights, steps);
  }

  /** A server that is closed or failed has closed its store owner, and all work of its start has ended. */
  lemma EndedIsClean(preflights: nat, steps: seq<Step>)
    requires Run(preflights, steps).state in {Closed, Failed}
    ensures Count(Run(preflights, steps).log, StoreClosed) == 1
    ensures Count(Run(preflights, steps).log, WorkBegan) == Count(Run(preflights, steps).log, WorkEnded)
  {
    hide Count;
    RunKeeps(preflights, steps);
  }

  /** A requested close never waits for nothing: some operation that it waits for can still settle. */
  lemma CloseNeverHangs(preflights: nat, steps: seq<Step>) returns (step: Step)
    requires Run(preflights, steps).close in {AwaitingStart, AwaitingCleanup}
    ensures !step.StartStep? && !step.CloseStep? && Enabled(Run(preflights, steps), step)
  {
    RunKeeps(preflights, steps);
    var s := Run(preflights, steps);
    step :=
      if s.close == AwaitingCleanup && s.cleanup == Cleaned then CloseDoneStep
      else if s.close == AwaitingStart && s.start == Over then CloseJoinsStep
      else if s.start.Preflighting? then PreflightStep(true)
      else if s.start.StartingChannels? then ChannelsStep(true)
      else if s.cleanup == Cleaned then StartCleanedStep
      else if s.cleanup == ClosingStore then StoreClosedStep
      else if !s.execution.channelsDone then ChannelsStoppedStep
      else if !s.execution.phase3Done then Phase3StoppedStep
      else ExecutionStoppedStep;
  }
}
