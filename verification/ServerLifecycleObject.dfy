/**
 The server runtime as an object whose memoised operations are its fields. Each method is proved equal
 to its function in `ServerLifecycle`.
 */
module ServerLifecycleObject {
  import opened ServerLifecycle

  class HuanLinkServerRuntime {
    const preflights: nat
    var state: State
    var startOperation: StartPhase
    var executionCloseOperation: Execution
    var cleanupOperation: Cleanup
    var closeOperation: ClosePhase
    var log: seq<LogEvent>

    ghost function Snapshot(): Server
      reads this
    {
      Server(preflights, state, startOperation, executionCloseOperation, cleanupOperation, closeOperation, log)
    }

    constructor (preflights: nat)
      ensures Snapshot() == Run(preflights, [])
    {
      this.preflights := preflights;
      state, startOperation, executionCloseOperation, cleanupOperation, closeOperation := Ready, Idle, Up, NotAsked, NotClosing;
      log := [];
    }

    /** Both layers are told to stop at once, the first time only. */
    method StopExecutionLayers()
      modifies this`executionCloseOperation, this`log
      ensures Snapshot() == StopExecution(old(Snapshot()))
    {
      if !executionCloseOperation.Up? { return; }
      executionCloseOperation := Stopping(false, false);
      log := log + [StopsChannels];
      log := log + [StopsPhase3];
    }

    method CleanupDependencies()
      modifies this`executionCloseOperation, this`cleanupOperation, this`log
      ensures Snapshot() == CleanUp(old(Snapshot()))
    {
      if cleanupOperation != NotAsked { return; }
      StopExecutionLayers();
      cleanupOperation := AwaitingExecution;
    }

    method BeginStartWork(index: nat)
      modifies this`startOperation, this`log
      ensures Snapshot() == BeginWork(old(Snapshot()), index)
    {
      if index < preflights { startOperation := Preflighting(index); } else { startOperation := StartingChannels; }
      log := log + [WorkBegan];
    }

    /** Answers false for a start that is refused because of the state. */
    method Start() returns (accepted: bool)
      modifies this
      ensures Snapshot() == StartServer(old(Snapshot()))
      ensures accepted <==> old(state) == Ready
    {
      if state != Ready { return false; }
      state := Starting;
      BeginStartWork(0);
      accepted := true;
    }

    method StartFails()
      modifies this
      ensures Snapshot() == FailStart(old(Snapshot()))
    {
      startOperation := CleaningUp(state == Closing);
      CleanupDependencies();
    }

    method OnPreflight(index: nat, ok: bool)
      modifies this
      ensures Snapshot() == PreflightSettled(old(Snapshot()), index, ok)
    {
      log := log + [WorkEnded];
      if ok && state == Starting { BeginStartWork(index + 1); } else { StartFails(); }
    }

    method OnChannelsStarted(ok: bool)
      modifies this
      ensures Snapshot() == ChannelsStarted(old(Snapshot()), ok)
    {
      log := log + [WorkEnded];
      if ok && state == Starting {
        state, startOperation := Running, Over;
        log := log + [BecameRunning];
      } else {
        StartFails();
      }
    }

    method Close()
      modifies this
      ensures Snapshot() == CloseServer(old(Snapshot()))
    {
      if closeOperation != NotClosing || state == Closed || state == Failed { return; }
      log := log + [CloseRequested];
      if state == Starting {
        state := Closing;
        StopExecutionLayers();
        closeOperation := AwaitingStart;
        return;
      }
      state := Closing;
      CleanupDependencies();
      closeOperation := AwaitingCleanup;
    }
  }
}
